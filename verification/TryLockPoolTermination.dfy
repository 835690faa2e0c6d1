/** What terminate does to the try-lock pool: what holds when it returns, and exactly which
    callers can lose a task by it. */
module TryLockPoolTermination {
  import opened Prelude
  import opened TryLockPool
  import opened TryLockPoolTheorems

  lemma StepSize(s: State, a: Action)
    ensures |Step(s, a).ms| == |s.ms|
  {
  }

  // ---- When terminate returns ----

  /** The step in which a terminate of client `c` returns. */
  predicate Terminates(s: State, c: nat)
  {
    && ClientEnabled(s, c) && (s.clients[c].Term? || s.clients[c].TermStop?)
    && ClientStep(s, c).clients[c].Out?
  }

  /** A stopped worker that is not running a task. */
  predicate Idles(s: State, i: nat) { i < |s.ms| && !s.ms[i].go && !s.ms[i].pc.Running? }

  lemma StepIdles(s: State, a: Action, i: nat)
    requires Idles(s, i)
    ensures Idles(Step(s, a), i)
  {
  }

  /** A returning terminate has stopped every manager, and whatever happens afterwards, no
      worker starts a task: those that run one are still in the one they had then. */
  lemma NothingStartsAfterTerminate(size: nat, clients: nat, acts: seq<Action>, c: nat, more: seq<Action>, i: nat)
    requires IsRun(size, clients, acts) && Terminates(After(size, clients, acts), c)
    requires CanRun(Enabled, Step, ClientStep(After(size, clients, acts), c), more)
    requires i < |After(size, clients, acts).ms|
    ensures !ClientStep(After(size, clients, acts), c).ms[i].go
    ensures var s := ClientStep(After(size, clients, acts), c);
      !s.ms[i].pc.Running? ==> Idles(Run(Step, s, more), i)
  {
    hide Step, Enabled;
    var s := ClientStep(After(size, clients, acts), c);
    RunControl(size, clients, acts);
    assert ClientOk(After(size, clients, acts).ms, After(size, clients, acts).clients[c]);
    if !s.ms[i].pc.Running? {
      forall s, a | Idles(s, i) && Enabled(s, a) ensures Idles(Step(s, a), i) {
        StepIdles(s, a, i);
      }
      RunKeeps(Enabled, Step, (s: State) => Idles(s, i), s, more);
    }
  }

  // ---- When a task can be lost ----

  /** A task in the slot of a worker that has ended: nothing will run or delete it. */
  ghost predicate Lost(s: State) { exists i :: 0 <= i < |s.ms| && s.ms[i].pc.Exited? && s.ms[i].task.Some? }

  ghost predicate NoExecute(cs: seq<Client>) { forall c :: 0 <= c < |cs| ==> PendingTask(cs[c]).None? }

  /** What callers look at before they call: with `overlap` they call terminate also while an
      execute is under way, with `late` they call execute also after terminate. */
  ghost function Callers(overlap: bool, late: bool): (State, Action) -> bool
  {
    (s: State, a: Action) =>
      Enabled(s, a) && (a.Enter? ==>
        && (a.call.Terminate? ==> overlap || NoExecute(s.clients))
        && (a.call.Execute? ==> late || !s.terminated))
  }

  ghost predicate CanLose(size: nat, overlap: bool, late: bool)
  {
    exists clients: nat, acts: seq<Action> ::
      CanRun(Callers(overlap, late), Step, Init(size, clients), acts) && Lost(After(size, clients, acts))
  }

  ghost predicate SafeManager(m: Manager, stopped: bool)
  {
    (m.pc.Exited? || m.pc.Leaving? ==> m.task.None?) && (m.go || stopped)
  }

  ghost predicate SafeManagers(ms: seq<Manager>, stopped: bool)
  {
    forall i :: 0 <= i < |ms| ==> SafeManager(ms[i], stopped)
  }

  predicate Stopped(s: State) { s.terminated || s.destroying }

  /** Managers are stopped only when no execute is under way, and none comes later. */
  ghost predicate CallsOk(s: State)
  {
    && (Stopped(s) ==> NoExecute(s.clients))
    && (!s.terminated ==> forall c :: 0 <= c < |s.clients| ==> !s.clients[c].Term? && !s.clients[c].TermStop?)
  }

  ghost predicate Safe(s: State)
  {
    && Good(s) && SafeManagers(s.ms, Stopped(s)) && CallsOk(s) && (s.h.discarded != [] ==> Stopped(s))
  }

  lemma EffectSafe(s: State, k: Client)
    requires SafeManagers(s.ms, Stopped(s)) && forall i :: 0 <= i < |s.ms| ==> ManagerOk(s.ms[i])
    requires if Stopped(s) then !k.Scan? else !k.Delete? && !k.TermStop?
    ensures var s' := Effect(s, k); s'.h.discarded == s.h.discarded && SafeManagers(s'.ms, Stopped(s))
  {
  }

  lemma ControlFacts(s: State, c: nat)
    requires Control(s) && CallsOk(s) && c < |s.clients|
    ensures forall i :: 0 <= i < |s.ms| ==> ManagerOk(s.ms[i])
    ensures if Stopped(s) then !s.clients[c].Scan? else !s.clients[c].Delete? && !s.clients[c].TermStop?
  {
    assert PendingTask(s.clients[c]).None? || !Stopped(s);
  }

  lemma CallsAfter(s: State, e: State, c: nat)
    requires CallsOk(s) && ClientEnabled(s, c) && e.(ms := s.ms, h := s.h) == s
    ensures CallsOk(Move(e, c, Next(s, s.clients[c])))
  {
  }

  lemma ClientSafe(s: State, c: nat)
    requires Safe(s) && ClientEnabled(s, c) && Good(ClientStep(s, c))
    ensures Safe(ClientStep(s, c))
  {
    hide Control, SubmittedKept, PlacedKept, Effect, SafeManagers, Takes, CallsOk, Next;
    ControlFacts(s, c);
    EffectSafe(s, s.clients[c]);
    EffectFrame(s, s.clients[c]);
    CallsAfter(s, Effect(s, s.clients[c]), c);
  }

  lemma WorkerSafe(s: State, i: nat)
    requires Safe(s) && WorkerEnabled(s, i) && Good(WorkerStep(s, i))
    ensures Safe(WorkerStep(s, i))
  {
    hide Control, SubmittedKept, PlacedKept;
    ManagersOk(s, i);
  }

  lemma EnterSafe(s: State, c: nat, call: Call)
    requires Safe(s) && Callers(false, false)(s, Enter(c, call)) && Good(EnterStep(s, c, call))
    ensures Safe(EnterStep(s, c, call))
  {
    hide Control, SubmittedKept, PlacedKept;
  }

  lemma StepSafe(s: State, a: Action)
    requires Safe(s) && Callers(false, false)(s, a)
    ensures Safe(Step(s, a))
  {
    hide Control, SubmittedKept, PlacedKept;
    StepGood(s, a);
    match a
    case ClientAct(c) => ClientSafe(s, c);
    case WorkerAct(i) => WorkerSafe(s, i);
    case Enter(c, call) => EnterSafe(s, c, call);
    case Return(_) =>
    case SpuriousWorker(_) =>
  }

  lemma InitSafe(size: nat, clients: nat)
    ensures Safe(Init(size, clients))
  {
    hide Good;
    InitGood(size, clients);
  }

  lemma RunSafe(size: nat, clients: nat, acts: seq<Action>)
    requires CanRun(Callers(false, false), Step, Init(size, clients), acts)
    ensures Safe(After(size, clients, acts))
  {
    hide Step, Enabled, Safe;
    InitSafe(size, clients);
    forall s, a | Safe(s) && Callers(false, false)(s, a) ensures Safe(Step(s, a)) {
      StepSafe(s, a);
    }
    RunKeeps(Callers(false, false), Step, Safe, Init(size, clients), acts);
  }

  lemma RestedSlots(s: State)
    requires Safe(s) && AtRest(s)
    ensures Filled(Slots(s.ms)) == multiset{}
  {
    hide SubmittedKept, PlacedKept;
    forall i | 0 <= i < |s.ms| ensures Slots(s.ms)[i].None? {
      assert SafeManager(s.ms[i], Stopped(s)) && ManagerOk(s.ms[i]);
    }
    FilledNone(Slots(s.ms));
  }

  /** If no execute overlaps or follows terminate, a pool at rest has deleted every task
      exactly once, and run every one unless it has been terminated or destroyed. */
  lemma RestedPoolHasServed(size: nat, clients: nat, acts: seq<Action>)
    requires CanRun(Callers(false, false), Step, Init(size, clients), acts) && AtRest(After(size, clients, acts))
    ensures var s := After(size, clients, acts); (
      && multiset(s.h.submitted) == multiset(s.h.finished) + multiset(s.h.discarded)
      && (!Stopped(s) ==> multiset(s.h.submitted) == multiset(s.h.finished)))
  {
    hide Control, SafeManagers, CallsOk, Run, CanRun, Step;
    RunSafe(size, clients, acts);
    var s := After(size, clients, acts);
    RestedSlots(s);
    FilledNone(Pending(s.clients));
  }

  // ---- How a task gets lost ----

  // Client 1 terminates the pool, client 0 comes with a task: early, before terminate
  // begins, or late, after it has returned.  Either way it finds a worker whose loop has
  // ended and whose thread lives.

  ghost predicate TermRun(size: nat, overlap: bool, late: bool, acts: seq<Action>)
  {
    CanRun(Callers(overlap, late), Step, Init(size, 2), acts)
  }

  lemma Extend(size: nat, overlap: bool, late: bool, acts: seq<Action>, a: Action)
    requires TermRun(size, overlap, late, acts) && Callers(overlap, late)(After(size, 2, acts), a)
    ensures TermRun(size, overlap, late, acts + [a]) && After(size, 2, acts + [a]) == Step(After(size, 2, acts), a)
  {
    RunExtend(Callers(overlap, late), Step, Init(size, 2), acts, a);
  }

  lemma EmptyRun(size: nat, overlap: bool, late: bool)
    ensures TermRun(size, overlap, late, []) && After(size, 2, []) == Init(size, 2)
  {
  }

  function Comer(overlap: bool): Client { if overlap then Exec(0) else Out }

  /** terminate has stopped `n` managers and not yet given the pool lock back; the workers
      are at `m` otherwise. */
  ghost predicate Stopping(s: State, size: nat, m: Manager, k: Client, n: nat)
  {
    && |s.ms| == size && n <= size && s.clients == [k, TermStop(n)] && s.pl == Some(1)
    && s.terminated && !s.destroying && (0 in s.h.submitted ==> k.Exec?)
    && (forall i :: 0 <= i < size ==> s.ms[i] == if i < n then Stop(m) else m)
  }

  lemma StoppingGoesOn(size: nat, overlap: bool, late: bool, acts0: seq<Action>, m: Manager, k: Client)
    returns (acts: seq<Action>)
    requires TermRun(size, overlap, late, acts0) && Stopping(After(size, 2, acts0), size, m, k, 0)
    ensures TermRun(size, overlap, late, acts) && Stopping(After(size, 2, acts), size, m, k, size)
  {
    hide CanRun, Run;
    acts := acts0;
    for n := 0 to size
      invariant TermRun(size, overlap, late, acts) && Stopping(After(size, 2, acts), size, m, k, n)
    {
      Extend(size, overlap, late, acts, ClientAct(1));
      acts := acts + [ClientAct(1)];
    }
  }

  lemma EveryoneIsStopped(size: nat, overlap: bool, late: bool) returns (acts: seq<Action>)
    ensures TermRun(size, overlap, late, acts) && Stopping(After(size, 2, acts), size, STARTED, Comer(overlap), size)
  {
    hide CanRun, Run;
    acts := [];
    assert TermRun(size, overlap, late, acts) && After(size, 2, acts) == Init(size, 2) by {
      EmptyRun(size, overlap, late);
    }
    if overlap {
      Extend(size, overlap, late, acts, Enter(0, Execute(0)));
      acts := acts + [Enter(0, Execute(0))];
    }
    assert overlap || NoExecute(After(size, 2, acts).clients);
    Extend(size, overlap, late, acts, Enter(1, Terminate));
    acts := acts + [Enter(1, Terminate)];
    Extend(size, overlap, late, acts, ClientAct(1));
    acts := acts + [ClientAct(1)];
    acts := StoppingGoesOn(size, overlap, late, acts, STARTED, Comer(overlap));
  }

  /** Worker 0 has ended its loop, its thread still lives, and client 0 comes with a task. */
  ghost predicate TooLate(s: State, k: Client)
  {
    && |s.ms| > 0 && s.ms[0] == Manager(Leaving, None, false) && s.clients != [] && s.clients[0] == k
    && s.pl == (if HoldsPool(k) then Some(0) else None) && !s.destroying
  }

  lemma LoopHasEnded(size: nat, overlap: bool, late: bool) returns (acts: seq<Action>)
    requires size > 0 && (overlap || late)
    ensures TermRun(size, overlap, late, acts) && TooLate(After(size, 2, acts), Exec(0))
  {
    hide CanRun, Run;
    acts := EveryoneIsStopped(size, overlap, late);
    Extend(size, overlap, late, acts, ClientAct(1));
    acts := acts + [ClientAct(1)];
    Extend(size, overlap, late, acts, WorkerAct(0));
    acts := acts + [WorkerAct(0)];
    if !overlap {
      Extend(size, overlap, late, acts, Enter(0, Execute(0)));
      acts := acts + [Enter(0, Execute(0))];
    }
  }

  lemma TaskIsLost(size: nat, overlap: bool, late: bool) returns (acts: seq<Action>)
    requires size > 0 && (overlap || late)
    ensures TermRun(size, overlap, late, acts) && Lost(After(size, 2, acts))
  {
    hide CanRun, Run;
    acts := LoopHasEnded(size, overlap, late);
    Extend(size, overlap, late, acts, ClientAct(0));
    acts := acts + [ClientAct(0)];
    Extend(size, overlap, late, acts, ClientAct(0));
    acts := acts + [ClientAct(0)];
    assert TooLate(After(size, 2, acts), Scan(0, 0, true));
    Extend(size, overlap, late, acts, ClientAct(0));
    acts := acts + [ClientAct(0)];
    Extend(size, overlap, late, acts, WorkerAct(0));
    acts := acts + [WorkerAct(0)];
    assert After(size, 2, acts).ms[0] == Manager(Exited, Some(0), false);
  }

  lemma NothingIsLost(size: nat, overlap: bool, late: bool, clients: nat, acts: seq<Action>)
    requires CanRun(Callers(overlap, late), Step, Init(size, clients), acts) && (size == 0 || !(overlap || late))
    ensures !Lost(After(size, clients, acts))
  {
    hide Step, Enabled;
    if size == 0 {
      forall s: State, a | |s.ms| == 0 && Callers(overlap, late)(s, a) ensures |Step(s, a).ms| == 0 {
        StepSize(s, a);
      }
      RunKeeps(Callers(overlap, late), Step, (s: State) => |s.ms| == 0, Init(size, clients), acts);
    } else {
      RunSafe(size, clients, acts);
    }
  }

  /** A pool with workers can lose a task exactly if its callers let an execute overlap with
      a terminate, or come after one; either is enough. */
  lemma LossCondition(size: nat, overlap: bool, late: bool)
    ensures CanLose(size, overlap, late) <==> size > 0 && (overlap || late)
  {
    hide CanRun, Run, Safe;
    if size > 0 && (overlap || late) {
      var acts := TaskIsLost(size, overlap, late);
    } else {
      forall clients: nat, acts: seq<Action> | CanRun(Callers(overlap, late), Step, Init(size, clients), acts)
        ensures !Lost(After(size, clients, acts))
      {
        NothingIsLost(size, overlap, late, clients, acts);
      }
    }
  }

  // ---- Who is left asleep ----

  /** Orderly callers who do not destroy the pool, and workers that wake for a reason. */
  ghost predicate Undisturbed(s: State, a: Action)
  {
    Callers(false, false)(s, a) && !a.SpuriousWorker? && (a.Enter? ==> !a.call.Destroy?)
  }

  ghost predicate SleepsOn(s: State, i: nat, asleep: bool)
  {
    && Safe(s) && s.terminated && !s.destroying && i < |s.ms| && !s.ms[i].go
    && (s.ms[i].pc == Asleep(false) <==> asleep)
  }

  lemma StepSleepsOn(s: State, a: Action, i: nat, asleep: bool)
    requires SleepsOn(s, i, asleep) && Undisturbed(s, a)
    ensures SleepsOn(Step(s, a), i, asleep)
  {
    hide SubmittedKept, PlacedKept, SafeManagers;
    StepSafe(s, a);
    if a.ClientAct? {
      assert !s.clients[a.c].Scan? && !s.clients[a.c].Delete?;
    }
  }

  /** terminate does not block until all threads have stopped.  What holds is this: when it
      returns and the pool then comes to rest, a thread has ended if and only if its worker
      was not asleep in want of a task; the others sleep on until the destructor. */
  lemma SleepersAreLeftAsleep(size: nat, clients: nat, acts: seq<Action>, c: nat, more: seq<Action>, i: nat)
    requires CanRun(Callers(false, false), Step, Init(size, clients), acts) && Terminates(After(size, clients, acts), c)
    requires CanRun(Undisturbed, Step, ClientStep(After(size, clients, acts), c), more)
    requires i < |After(size, clients, acts).ms| && AtRest(Run(Step, ClientStep(After(size, clients, acts), c), more))
    ensures var s := ClientStep(After(size, clients, acts), c); var s' := Run(Step, s, more); (
      i < |s'.ms| && s'.ms[i].task.None? && (s'.ms[i].pc.Exited? <==> s.ms[i].pc != Asleep(false)))
  {
    hide Step, Callers, Safe, AtRest;
    var s := ClientStep(After(size, clients, acts), c);
    TerminateHasStopped(size, clients, acts, c, i);
    var asleep := s.ms[i].pc == Asleep(false);
    forall s, a | SleepsOn(s, i, asleep) && Undisturbed(s, a) ensures SleepsOn(Step(s, a), i, asleep) {
      StepSleepsOn(s, a, i, asleep);
    }
    RunKeeps(Undisturbed, Step, (s: State) => SleepsOn(s, i, asleep), s, more);
    RestedWorker(Run(Step, s, more), i);
  }

  lemma RestedWorker(s: State, i: nat)
    requires Safe(s) && AtRest(s) && i < |s.ms|
    ensures s.ms[i].task.None? && (s.ms[i].pc.Exited? || s.ms[i].pc == Asleep(false))
  {
    hide SubmittedKept, PlacedKept;
    assert SafeManager(s.ms[i], Stopped(s)) && ManagerOk(s.ms[i]);
  }

  lemma TerminateHasStopped(size: nat, clients: nat, acts: seq<Action>, c: nat, i: nat)
    requires CanRun(Callers(false, false), Step, Init(size, clients), acts) && Terminates(After(size, clients, acts), c)
    requires i < |After(size, clients, acts).ms|
    ensures var s := ClientStep(After(size, clients, acts), c);
      Safe(s) && s.terminated && !s.destroying && i < |s.ms| && !s.ms[i].go
  {
    hide SubmittedKept, PlacedKept, SafeManagers, Run, CanRun;
    var s := After(size, clients, acts);
    RunSafe(size, clients, acts);
    StepSafe(s, ClientAct(c));
    assert ClientOk(s.ms, s.clients[c]) && !s.destroying;
  }

  const RESTING := Manager(Asleep(false), None, true)

  ghost predicate AllAsleep(s: State) { forall i :: 0 <= i < |s.ms| ==> s.ms[i].pc == Asleep(false) }

  lemma EveryoneFallsAsleep(size: nat) returns (acts: seq<Action>)
    ensures TermRun(size, false, false, acts)
    ensures var s := After(size, 2, acts);
      s == Init(size, 2).(ms := s.ms) && |s.ms| == size && forall i :: 0 <= i < size ==> s.ms[i] == RESTING
  {
    hide CanRun, Run;
    acts := [];
    assert TermRun(size, false, false, acts) && After(size, 2, acts) == Init(size, 2) by {
      EmptyRun(size, false, false);
    }
    for n := 0 to size
      invariant TermRun(size, false, false, acts)
      invariant var s := After(size, 2, acts);
        && s == Init(size, 2).(ms := s.ms) && |s.ms| == size
        && forall i :: 0 <= i < size ==> s.ms[i] == if i < n then RESTING else STARTED
    {
      Extend(size, false, false, acts, WorkerAct(n));
      acts := acts + [WorkerAct(n)];
    }
  }

  /** It can be all of them: an orderly terminate of a pool of any size that has nothing to
      do returns with every thread alive. */
  lemma TerminateCanStopNobody(size: nat) returns (acts: seq<Action>)
    ensures CanRun(Callers(false, false), Step, Init(size, 2), acts)
    ensures Terminates(After(size, 2, acts), 1) && AllAsleep(ClientStep(After(size, 2, acts), 1))
  {
    hide CanRun, Run;
    acts := EveryoneFallsAsleep(size);
    assert NoExecute(After(size, 2, acts).clients);
    Extend(size, false, false, acts, Enter(1, Terminate));
    acts := acts + [Enter(1, Terminate)];
    Extend(size, false, false, acts, ClientAct(1));
    acts := acts + [ClientAct(1)];
    acts := StoppingGoesOn(size, false, false, acts, RESTING, Out);
  }
}
