/** When an accepted task can be left behind.

    A worker announces that it is idle without holding the queue lock, so the
    announcement is lost on a dispatcher that is still scanning.  If that happens with
    every worker, the dispatcher goes to sleep on a task that nobody will wake it for. */
module PosixPoolStranding {
  import opened Prelude
  import opened PosixPool
  import opened PosixPoolControl
  import opened PosixPoolSafety
  import opened PosixPoolTheorems
  import opened PosixPoolProgress

  /** The pool runs on, nothing in it can move, and a task is still queued. */
  ghost predicate Stranded(s: State) { Quiet(s) && s.go && s.queue != [] }

  /** What the callers can count: the tasks accepted and not yet run to their end. */
  function Unfinished(s: State): int { |s.h.accepted| - |s.h.finished| }

  /** Callers who let an execute through only while fewer than `limit` are unfinished. */
  function Limited(limit: nat): (State, Action) -> bool
  {
    (s: State, a: Action) =>
      Enabled(s, a) && (a.ClientAct? && s.clients[a.c].Exec? ==> Unfinished(s) < limit)
  }

  /** Callers who, besides, do nothing but execute. */
  function Executing(limit: nat): (State, Action) -> bool
  {
    (s: State, a: Action) =>
      && Enabled(s, a) && (a.ClientAct? && s.clients[a.c].Exec? ==> Unfinished(s) < limit)
      && (a.Enter? ==> a.call.Execute?)
  }

  ghost predicate CanStrand(size: nat, limit: nat)
  {
    exists clients: nat, acts: seq<Action> ::
      CanRun(Limited(limit), Step, Init(size, clients), acts) && Stranded(After(size, clients, acts))
  }

  // ---- With no more unfinished tasks than workers, nothing is left behind ----

  /** A scanning dispatcher has an empty slot ahead of it, so it never gives up. */
  ghost predicate RoomAhead(s: State)
  {
    && (s.disp.DScan? ==> exists j :: s.disp.i <= j < |s.ms| && s.ms[j].task.None?)
    && ((s.disp.DReady? || s.disp.DAsleep?) && s.go ==> s.disp.peek.None?)
  }

  ghost predicate Roomy(s: State, size: nat)
  {
    Good(s) && |s.ms| == size && (s.go ==> Unfinished(s) <= size) && RoomAhead(s)
  }

  /** While the pool runs, the unfinished tasks are those queued and those in slots. */
  lemma UnfinishedAre(s: State)
    requires Ledger(s) && s.h.drained == [] && s.h.discarded == []
    ensures Unfinished(s) == |s.queue| + |Filled(Slots(s.ms))|
  {
    assert |multiset(s.h.dispatched)| == |Filled(Slots(s.ms))| + |multiset(s.h.finished)|;
  }

  lemma RunningLedger(s: State)
    requires Good(s) && s.go
    ensures s.h.drained == [] && s.h.discarded == []
  {
    assert PhaseOf(s) == Live by {
      if s.pl.Some? {
        assert ClientOk(s, s.clients[s.pl.value.c]);
      }
    }
    forall i | 0 <= i < |s.ms| ensures ExitFlags(s.ms)[i] == 0 {
      assert ManagerOk(s.ms[i]);
    }
    SumBound(ExitFlags(s.ms), 0);
  }

  lemma RoomForTheFront(s: State, size: nat)
    requires Good(s) && s.go && |s.ms| == size && Unfinished(s) <= size && s.queue != []
    ensures exists j :: 0 <= j < |s.ms| && s.ms[j].task.None?
  {
    RunningLedger(s);
    UnfinishedAre(s);
    AllFilled(Slots(s.ms));
    assert forall j :: 0 <= j < |s.ms| ==> Slots(s.ms)[j] == s.ms[j].task;
  }

  /** Unless it starts a scan, the dispatcher keeps the room ahead. */
  lemma ScanAhead(s: State)
    requires RoomAhead(s) && DispatcherEnabled(s)
    ensures var s' := DispatcherStep(s); s'.go == s.go && (RoomAhead(s') || (s'.disp.DScan? && s'.disp.i == 0))
  {
    hide SetTask;
    if s.disp.DScan? {
      var j :| s.disp.i <= j < |s.ms| && s.ms[j].task.None?;
      assert DispatcherStep(s).disp.DScan? && DispatcherStep(s).disp.i > 0 ==> DispatcherStep(s).ms[j].task.None?;
    }
  }

  lemma ResumeFrame(s: State, peek: Option<Task>)
    ensures var s' := Resume(s, peek); s'.h == s.h && s'.ms == s.ms && s'.go == s.go && s'.clients == s.clients
  {
  }

  lemma AssignedFrame(s: State, t: Task, i: nat)
    requires i < |s.ms|
    ensures var s' := Assigned(s, t, i); (
      Unfinished(s') == Unfinished(s) && |s'.ms| == |s.ms| && s'.go == s.go && s'.clients == s.clients)
  {
    hide SetTask;
  }

  lemma DispatcherCounts(s: State)
    requires DispatcherEnabled(s)
    ensures var s' := DispatcherStep(s); (
      Unfinished(s') == Unfinished(s) && |s'.ms| == |s.ms| && s'.go == s.go && s'.clients == s.clients)
  {
    hide Assigned, Resume;
    match s.disp
    case DReady(peek) => ResumeFrame(s, peek);
    case DScan(t, i, idle) =>
      if i < |s.ms| {
        AssignedFrame(s, t, i);
        ResumeFrame(Assigned(s, t, i), None);
      }
    case DAsleep(_, _) =>
    case DExited =>
  }

  lemma DispatcherRoomy(s: State, size: nat)
    requires Roomy(s, size) && DispatcherEnabled(s)
    ensures Roomy(DispatcherStep(s), size)
  {
    hide Good, RoomAhead, DispatcherStep, Unfinished;
    var s' := DispatcherStep(s);
    StepGood(s, DispatcherAct);
    StepSize(s, DispatcherAct);
    DispatcherCounts(s);
    ScanAhead(s);
    if s'.disp.DScan? && s'.disp.i == 0 {
      ScanFromTheFront(s', size);
    }
  }

  lemma ScanFromTheFront(s: State, size: nat)
    requires Good(s) && |s.ms| == size && (s.go ==> Unfinished(s) <= size) && s.disp.DScan? && s.disp.i == 0
    ensures RoomAhead(s)
  {
    ScanIsLive(s);
    RoomForTheFront(s, size);
  }

  lemma WorkerRoomy(s: State, size: nat, i: nat)
    requires Roomy(s, size) && i < |s.ms| && WorkerEnabled(s.ms[i])
    ensures Roomy(WorkerStep(s, i), size)
  {
    hide Ledger, PhaseOk, LocksOk, ClientsOk, DestroyOk;
    var s' := WorkerStep(s, i);
    StepGood(s, WorkerAct(i));
    assert ManagerOk(s.ms[i]);
    assert s.ms[i].task.None? ==> s'.ms[i].task.None?;
    assert forall j :: 0 <= j < |s.ms| && s.ms[j].task.None? ==> s'.ms[j].task.None?;
    assert s'.h.accepted == s.h.accepted && |s'.h.finished| >= |s.h.finished| && s'.go == s.go;
  }

  lemma EffectTasks(s: State, k: Client)
    ensures var ms := Effect(s, k).ms; |ms| == |s.ms| && forall j :: 0 <= j < |s.ms| ==> ms[j].task == s.ms[j].task
  {
    hide Signal;
  }

  lemma EffectRoomy(s: State, k: Client)
    ensures var s' := Effect(s, k); (
      && |s'.ms| == |s.ms| && (forall j :: 0 <= j < |s.ms| ==> s'.ms[j].task == s.ms[j].task)
      && s'.h.finished == s.h.finished && (s'.go ==> s.go)
      && |s'.h.accepted| <= |s.h.accepted| + (if k.Exec? then 1 else 0)
      && (s'.disp == s.disp || s'.disp == Signal(s.disp)))
  {
    hide Signal, Stop, Retire;
    EffectTasks(s, k);
  }

  lemma StepRoomy(s: State, size: nat, limit: nat, a: Action)
    requires limit <= size && Roomy(s, size) && Limited(limit)(s, a)
    ensures Roomy(Step(s, a), size)
  {
    hide Control, Ledger, Effect, Next;
    StepGood(s, a);
    match a
    case DispatcherAct => DispatcherRoomy(s, size);
    case WorkerAct(i) => WorkerRoomy(s, size, i);
    case ClientAct(c) => EffectRoomy(s, s.clients[c]);
    case SpuriousWorker(i) => assert forall j :: 0 <= j < |s.ms| ==> Step(s, a).ms[j].task == s.ms[j].task;
    case _ =>
  }

  lemma LightLoadIsServed(size: nat, limit: nat, clients: nat, acts: seq<Action>)
    requires limit <= size && CanRun(Limited(limit), Step, Init(size, clients), acts)
    ensures !Stranded(After(size, clients, acts))
  {
    hide Control, Ledger, Step;
    InitGood(size, clients);
    forall s, a | Roomy(s, size) && Limited(limit)(s, a) ensures Roomy(Step(s, a), size) {
      StepRoomy(s, size, limit, a);
    }
    RunKeeps(Limited(limit), Step, (s: State) => Roomy(s, size), Init(size, clients), acts);
    NotStranded(After(size, clients, acts), size);
  }

  lemma NotStranded(s: State, size: nat)
    requires Roomy(s, size)
    ensures !Stranded(s)
  {
    if Quiet(s) {
      QuietLocks(s);
    }
  }

  // ---- One task more than there are workers can be left behind ----

  const RESTING := Manager(Asleep(false), None, true)

  predicate Loaded(m: Manager) { m.pc == Asleep(true) && m.task.Some? && m.go }

  ghost predicate LimitedRun(size: nat, limit: nat, acts: seq<Action>)
  {
    CanRun(Executing(limit), Step, Init(size, 1), acts)
  }

  lemma Extend(size: nat, limit: nat, acts: seq<Action>, a: Action)
    requires LimitedRun(size, limit, acts) && Executing(limit)(After(size, 1, acts), a)
    ensures LimitedRun(size, limit, acts + [a]) && After(size, 1, acts + [a]) == Step(After(size, 1, acts), a)
  {
    RunExtend(Executing(limit), Step, Init(size, 1), acts, a);
  }

  /** Before the dispatcher has the lock: `asleep` workers sleep, `k` tasks are queued. */
  ghost predicate Prepared(s: State, size: nat, asleep: nat, k: nat)
  {
    && |s.ms| == size && s.go && s.clients == [Idle] && !s.destroying && s.ql.None? && s.disp == DReady(None)
    && asleep <= size && (forall i :: 0 <= i < size ==> s.ms[i] == if i < asleep then RESTING else STARTED)
    && |s.queue| == |s.h.accepted| == k && s.h.finished == [] && (forall t :: t in s.h.submitted ==> t < k)
  }

  /** The first `k` workers have been given a task, which they have not yet noticed. */
  ghost predicate Dealing(s: State, size: nat, k: nat, j: nat)
  {
    && |s.ms| == size && s.go && s.clients == [Idle] && j <= k <= size
    && |s.queue| == size + 1 - k && s.disp == DScan(s.queue[0], j, false)
    && (forall i :: 0 <= i < k ==> Loaded(s.ms[i])) && (forall i :: k <= i < size ==> s.ms[i] == RESTING)
  }

  /** The scan for the last task has passed everyone; `done` workers have finished since. */
  ghost predicate Passed(s: State, size: nat, done: nat)
  {
    && |s.ms| == size && s.go && s.clients == [Idle] && done <= size
    && |s.queue| == 1 && s.disp == DScan(s.queue[0], size, false)
    && (forall i :: 0 <= i < done ==> s.ms[i] == RESTING) && (forall i :: done <= i < size ==> Loaded(s.ms[i]))
  }

  lemma WorkersFallAsleep(size: nat, limit: nat) returns (acts: seq<Action>)
    ensures LimitedRun(size, limit, acts) && Prepared(After(size, 1, acts), size, size, 0)
  {
    hide CanRun, Run;
    acts := [];
    EmptyRun(size, limit);
    for n := 0 to size
      invariant LimitedRun(size, limit, acts) && Prepared(After(size, 1, acts), size, n, 0)
    {
      Extend(size, limit, acts, WorkerAct(n));
      acts := acts + [WorkerAct(n)];
    }
  }

  lemma EmptyRun(size: nat, limit: nat)
    ensures LimitedRun(size, limit, []) && After(size, 1, []) == Init(size, 1)
  {
  }

  lemma TasksAreQueued(size: nat, limit: nat, acts0: seq<Action>, n: nat) returns (acts: seq<Action>)
    requires n <= limit && LimitedRun(size, limit, acts0) && Prepared(After(size, 1, acts0), size, size, 0)
    ensures LimitedRun(size, limit, acts) && Prepared(After(size, 1, acts), size, size, n)
  {
    hide CanRun, Run;
    acts := acts0;
    for k := 0 to n
      invariant LimitedRun(size, limit, acts) && Prepared(After(size, 1, acts), size, size, k)
    {
      Extend(size, limit, acts, Enter(0, Execute(k)));
      acts := acts + [Enter(0, Execute(k))];
      Extend(size, limit, acts, ClientAct(0));
      acts := acts + [ClientAct(0)];
    }
  }

  lemma ScanPasses(size: nat, limit: nat, acts0: seq<Action>, k: nat) returns (acts: seq<Action>)
    requires LimitedRun(size, limit, acts0) && Dealing(After(size, 1, acts0), size, k, 0)
    ensures LimitedRun(size, limit, acts) && Dealing(After(size, 1, acts), size, k, k)
  {
    hide CanRun, Run;
    acts := acts0;
    for j := 0 to k
      invariant LimitedRun(size, limit, acts) && Dealing(After(size, 1, acts), size, k, j)
    {
      Extend(size, limit, acts, DispatcherAct);
      acts := acts + [DispatcherAct];
    }
  }

  lemma EveryoneIsDealt(size: nat, limit: nat, acts0: seq<Action>) returns (acts: seq<Action>)
    requires LimitedRun(size, limit, acts0) && Prepared(After(size, 1, acts0), size, size, size + 1)
    ensures LimitedRun(size, limit, acts) && Passed(After(size, 1, acts), size, 0)
  {
    hide CanRun, Run;
    Extend(size, limit, acts0, DispatcherAct);
    acts := acts0 + [DispatcherAct];
    for k := 0 to size
      invariant LimitedRun(size, limit, acts) && Dealing(After(size, 1, acts), size, k, 0)
    {
      acts := ScanPasses(size, limit, acts, k);
      Extend(size, limit, acts, DispatcherAct);
      acts := acts + [DispatcherAct];
      Extend(size, limit, acts, DispatcherAct);
      acts := acts + [DispatcherAct];
    }
    acts := ScanPasses(size, limit, acts, size);
  }

  lemma EveryoneFinishes(size: nat, limit: nat, acts0: seq<Action>) returns (acts: seq<Action>)
    requires LimitedRun(size, limit, acts0) && Passed(After(size, 1, acts0), size, 0)
    ensures LimitedRun(size, limit, acts) && Passed(After(size, 1, acts), size, size)
  {
    hide CanRun, Run;
    acts := acts0;
    for n := 0 to size
      invariant LimitedRun(size, limit, acts) && Passed(After(size, 1, acts), size, n)
    {
      Extend(size, limit, acts, WorkerAct(n));
      acts := acts + [WorkerAct(n)];
      Extend(size, limit, acts, WorkerAct(n));
      acts := acts + [WorkerAct(n)];
      Extend(size, limit, acts, WorkerAct(n));
      acts := acts + [WorkerAct(n)];
      Extend(size, limit, acts, WorkerAct(n));
      acts := acts + [WorkerAct(n)];
    }
  }

  lemma HeavyLoadCanStrand(size: nat, limit: nat) returns (acts: seq<Action>)
    requires limit > size
    ensures LimitedRun(size, limit, acts) && Stranded(After(size, 1, acts))
  {
    hide CanRun, Run;
    acts := WorkersFallAsleep(size, limit);
    acts := TasksAreQueued(size, limit, acts, size + 1);
    acts := EveryoneIsDealt(size, limit, acts);
    acts := EveryoneFinishes(size, limit, acts);
    Extend(size, limit, acts, DispatcherAct);
    acts := acts + [DispatcherAct];
  }

  /** A pool can leave an accepted task behind exactly when its callers let more tasks be
      unfinished at a time than it has workers. */
  lemma StrandingThreshold(size: nat, limit: nat)
    ensures CanStrand(size, limit) <==> limit > size
  {
    hide CanRun, Run, Stranded;
    if limit > size {
      var acts := HeavyLoadCanStrand(size, limit);
      RunWeakens(Executing(limit), Limited(limit), Step, Init(size, 1), acts);
    } else {
      forall clients: nat, acts: seq<Action> | CanRun(Limited(limit), Step, Init(size, clients), acts)
        ensures !Stranded(After(size, clients, acts))
      {
        LightLoadIsServed(size, limit, clients, acts);
      }
    }
  }
}
