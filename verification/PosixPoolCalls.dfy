/** What the queued pool owes to its callers: which tasks it accepts, what is_idle answers,
    which tasks it runs, and what holds when terminate returns. */
module PosixPoolCalls {
  import opened Prelude
  import opened PosixPool
  import opened PosixPoolControl
  import opened PosixPoolSafety
  import opened PosixPoolTheorems
  import opened PosixPoolStranding

  // ---- What is accepted ----

  lemma EffectAnswers(s: State, k: Client)
    ensures var s' := Effect(s, k); (
      && s'.go == (s.go && !k.TermQueue?)
      && s'.h.accepted == s.h.accepted + (if k.Exec? && s.go then [k.t] else [])
      && s'.h.rejected == s.h.rejected + (if k.Exec? && !s.go then [k.t] else []))
  {
    hide Signal, Stop, Retire;
  }

  /** An execute is the one step that accepts or rejects a task. */
  lemma StepAnswers(s: State, a: Action)
    requires Enabled(s, a)
    ensures var s' := Step(s, a); var t := a.ClientAct? && s.clients[a.c].Exec?; (
      && s'.go == (s.go && !(a.ClientAct? && s.clients[a.c].TermQueue?))
      && s'.h.accepted == s.h.accepted + (if t && s.go then [s.clients[a.c].t] else [])
      && s'.h.rejected == s.h.rejected + (if t && !s.go then [s.clients[a.c].t] else []))
  {
    hide Effect, Next, SetTask, WorkerNext, LoopHead;
    match a
    case ClientAct(c) => EffectAnswers(s, s.clients[c]);
    case DispatcherAct => DispatcherAnswers(s);
    case WorkerAct(_) =>
    case Enter(_, _) =>
    case Return(_) =>
    case SpuriousDispatcher =>
    case SpuriousWorker(_) =>
  }

  lemma DispatcherAnswers(s: State)
    requires DispatcherEnabled(s)
    ensures var s' := DispatcherStep(s); s'.go == s.go && s'.h.accepted == s.h.accepted && s'.h.rejected == s.h.rejected
  {
    hide Resume, SetTask;
    match s.disp
    case DReady(peek) => ResumeFrame(s, peek);
    case DScan(t, i, idle) =>
      if i < |s.ms| {
        ResumeFrame(Assigned(s, t, i), None);
      }
    case DAsleep(_, _) =>
    case DExited =>
  }

  /** A running pool has accepted every task whose execute has returned. */
  lemma RunningPoolRejectsNothing(size: nat, clients: nat, acts: seq<Action>)
    requires IsRun(size, clients, acts) && After(size, clients, acts).go
    ensures After(size, clients, acts).h.rejected == []
    ensures var s := After(size, clients, acts);
      multiset(s.h.submitted) == Filled(Pending(s.clients)) + multiset(s.h.accepted)
  {
    hide Step, Enabled, Control;
    var p := (s: State) => s.go ==> s.h.rejected == [];
    forall s, a | p(s) && Enabled(s, a) ensures p(Step(s, a)) {
      StepAnswers(s, a);
    }
    RunKeeps(Enabled, Step, p, Init(size, clients), acts);
    RunGood(size, clients, acts);
  }

  /** A stopped pool stays stopped and accepts no task. */
  lemma StoppedPoolAcceptsNothing(s: State, more: seq<Action>)
    requires CanRun(Enabled, Step, s, more) && !s.go
    ensures !Run(Step, s, more).go && Run(Step, s, more).h.accepted == s.h.accepted
    ensures s.h.rejected <= Run(Step, s, more).h.rejected
  {
    hide Step, Enabled;
    var p := (t: State) => !t.go && t.h.accepted == s.h.accepted && s.h.rejected <= t.h.rejected;
    forall t, a | p(t) && Enabled(t, a) ensures p(Step(t, a)) {
      StepAnswers(t, a);
    }
    RunKeeps(Enabled, Step, p, s, more);
  }

  /** The step in which the first terminate, or the destructor, stops the pool. */
  ghost predicate Stops(size: nat, clients: nat, acts: seq<Action>, k: nat)
  {
    k < |acts| && acts[k].ClientAct? && var s := After(size, clients, acts[..k]);
    IsRun(size, clients, acts[..k]) && acts[k].c < |s.clients| && s.clients[acts[k].c].TermQueue? && s.go
  }

  /** A stopped pool was stopped by one step of its run.  It has accepted exactly the tasks
      whose execute came before, and rejected exactly those whose execute came after. */
  lemma TerminateDivides(size: nat, clients: nat, acts: seq<Action>) returns (k: nat)
    requires IsRun(size, clients, acts) && !After(size, clients, acts).go
    ensures Stops(size, clients, acts, k)
    ensures After(size, clients, acts).h.accepted == After(size, clients, acts[..k]).h.accepted
    ensures After(size, clients, acts[..k]).h.rejected == [] && !After(size, clients, acts[..k + 1]).go
  {
    hide Step, Enabled;
    var s0 := Init(size, clients);
    k := LastSwitch(Enabled, Step, (s: State) => s.go, s0, acts);
    RunPrefix(Enabled, Step, s0, acts, k);
    RunningPoolRejectsNothing(size, clients, acts[..k]);
    StepAnswers(After(size, clients, acts[..k]), acts[k]);
    assert acts == acts[..k + 1] + acts[k + 1..];
    RunAppend(Enabled, Step, s0, acts[..k + 1], acts[k + 1..]);
    StoppedPoolAcceptsNothing(After(size, clients, acts[..k + 1]), acts[k + 1..]);
    StopperIsEnabled(After(size, clients, acts[..k]), acts[k]);
  }

  lemma StopperIsEnabled(s: State, a: Action)
    requires Enabled(s, a) && a.ClientAct?
    ensures a.c < |s.clients|
  {
  }

  /** When the destructor has returned, every task has been deleted exactly once: those whose
      execute came after the first terminate at once and unrun; of the others all but at most
      one per worker, from a slot, and a suffix, from the queue, have been run. */
  lemma DestructionDivides(size: nat, clients: nat, acts: seq<Action>, c: nat) returns (k: nat)
    requires IsRun(size, clients, acts)
    requires c < |After(size, clients, acts).clients| && After(size, clients, acts).clients[c].Destroyed?
    ensures AllDeletedOnce(After(size, clients, acts).h, size) && Stops(size, clients, acts, k)
    ensures After(size, clients, acts).h.accepted == After(size, clients, acts[..k]).h.accepted
    ensures After(size, clients, acts[..k]).h.rejected == []
    ensures var h := After(size, clients, acts).h;
      multiset(h.rejected) == multiset(h.submitted) - multiset(After(size, clients, acts[..k]).h.accepted)
  {
    hide Control, Step, Enabled;
    DestructionIsComplete(size, clients, acts, c);
    DestroyedIsStopped(size, clients, acts, c);
    k := TerminateDivides(size, clients, acts);
    RejectedAre(After(size, clients, acts).h, size);
  }

  lemma DestroyedIsStopped(size: nat, clients: nat, acts: seq<Action>, c: nat)
    requires IsRun(size, clients, acts)
    requires c < |After(size, clients, acts).clients| && After(size, clients, acts).clients[c].Destroyed?
    ensures !After(size, clients, acts).go
  {
    RunControl(size, clients, acts);
    assert ClientOk(After(size, clients, acts), After(size, clients, acts).clients[c]);
  }

  lemma RejectedAre(h: History, size: nat)
    requires AllDeletedOnce(h, size)
    ensures multiset(h.rejected) == multiset(h.submitted) - multiset(h.accepted)
  {
    assert multiset(h.accepted) == multiset(h.dispatched) + multiset(h.drained);
  }

  // ---- What is_idle answers ----

  /** The step in which an is_idle of client `c` is answered. */
  predicate Answers(s: State, c: nat)
  {
    ClientEnabled(s, c) && !s.clients[c].Answered? && ClientStep(s, c).clients[c].Answered?
  }

  lemma {:induction false} SomethingFilled<T>(xs: seq<Option<T>>, i: nat)
    requires i < |xs| && xs[i].Some?
    ensures |Filled(xs)| > 0
  {
    FilledHas(xs, i);
  }

  /** A task in the queue or in a slot is accepted and not finished. */
  lemma NotAllDone(s: State)
    requires Good(s) && s.go && (s.queue != [] || exists i :: 0 <= i < |s.ms| && s.ms[i].task.Some?)
    ensures multiset(s.h.finished) != multiset(s.h.accepted)
  {
    hide Control;
    RunningLedger(s);
    UnfinishedAre(s);
    if s.queue == [] {
      var i :| 0 <= i < |s.ms| && s.ms[i].task.Some?;
      SomethingFilled(Slots(s.ms), i);
    }
    assert |multiset(s.h.finished)| == |s.h.finished| && |multiset(s.h.accepted)| == |s.h.accepted|;
  }

  /** What a running pool with workers looks like when is_idle says no. */
  lemma NoMeansWork(s: State, c: nat)
    requires Control(s) && s.go && |s.ms| > 0 && Answers(s, c) && ClientStep(s, c).clients[c] == Answered(false)
    ensures s.queue != [] || exists i :: 0 <= i < |s.ms| && s.ms[i].task.Some?
    ensures var s' := ClientStep(s, c); s'.h == s.h
  {
    assert ClientOk(s, s.clients[c]);
  }

  /** In a running pool with workers, is_idle answers yes if and only if, when it answers,
      every accepted task has been run and deleted. */
  lemma IdleAnswerIsExact(size: nat, clients: nat, acts: seq<Action>, c: nat)
    requires IsRun(size, clients, acts) && Answers(After(size, clients, acts), c)
    requires After(size, clients, acts).go && size > 0
    ensures var s := ClientStep(After(size, clients, acts), c);
      s.clients[c].idle <==> multiset(s.h.finished) == multiset(s.h.accepted)
  {
    hide Control, Answers, ClientStep;
    var s := After(size, clients, acts);
    RunGood(size, clients, acts);
    RunSize(size, clients, acts);
    AnswersFact(s, c);
    if ClientStep(s, c).clients[c].idle {
      IdleIsASnapshot(size, clients, acts, c);
    } else {
      NoMeansWork(s, c);
      NotAllDone(s);
    }
  }

  lemma AnswersFact(s: State, c: nat)
    requires Answers(s, c)
    ensures ClientEnabled(s, c) && c < |ClientStep(s, c).clients| && ClientStep(s, c).clients[c].Answered?
  {
  }

  // ---- What is run ----

  predicate Runs(s: State, t: Task, i: nat) { i < |s.ms| && s.ms[i].pc.Running? && s.ms[i].task == Some(t) }

  ghost predicate Running(s: State, t: Task) { exists i :: Runs(s, t, i) }

  ghost predicate Started(s: State, t: Task) { t in s.h.finished || Running(s, t) }

  lemma WorkerStarted(s: State, i: nat, t: Task)
    requires Control(s) && i < |s.ms| && WorkerEnabled(s.ms[i])
    ensures Started(s, t) ==> Started(WorkerStep(s, i), t)
    ensures t in WorkerStep(s, i).h.finished ==> Started(s, t)
  {
    hide LoopHead;
    var s' := WorkerStep(s, i);
    if t in s'.h.finished && t !in s.h.finished {
      assert Runs(s, t, i);
    }
    if j :| Runs(s, t, j) {
      assert j != i ==> Runs(s', t, j);
    }
  }

  /** A change to the managers that touches no running one. */
  ghost predicate RunningKept(s: State, s': State)
  {
    && s'.h.finished == s.h.finished && |s'.ms| == |s.ms|
    && forall i :: 0 <= i < |s.ms| && s.ms[i].pc.Running? ==> s'.ms[i].pc.Running? && s'.ms[i].task == s.ms[i].task
  }

  lemma OthersStarted(s: State, s': State, t: Task)
    requires RunningKept(s, s')
    ensures Started(s, t) ==> Started(s', t)
  {
    if i :| Runs(s, t, i) {
      assert Runs(s', t, i);
    }
  }

  lemma EffectRunning(s: State, k: Client)
    ensures RunningKept(s, Effect(s, k))
  {
    hide Signal;
  }

  lemma ClientRunning(s: State, c: nat)
    requires ClientEnabled(s, c)
    ensures RunningKept(s, ClientStep(s, c))
  {
    hide Effect, Next;
    EffectRunning(s, s.clients[c]);
  }

  lemma AssignedRunning(s: State, t: Task, i: nat)
    requires i < |s.ms| && (s.ms[i].task.None? ==> !s.ms[i].pc.Running?)
    ensures RunningKept(s, Assigned(s, t, i))
  {
  }

  lemma DispatcherRunning(s: State)
    requires Control(s) && DispatcherEnabled(s)
    ensures RunningKept(s, DispatcherStep(s))
  {
    hide LocksOk, PhaseOk, ClientsOk, DestroyOk, DispatcherOk, Resume, Assigned;
    match s.disp
    case DReady(peek) => ResumeFrame(s, peek);
    case DScan(t, i, idle) =>
      if i < |s.ms| {
        assert ManagerOk(s.ms[i]);
        AssignedRunning(s, t, i);
        ResumeFrame(Assigned(s, t, i), None);
      }
    case DAsleep(_, _) =>
    case DExited =>
  }

  lemma StepStarted(s: State, a: Action, t: Task)
    requires Control(s) && Enabled(s, a)
    ensures Started(s, t) ==> Started(Step(s, a), t)
    ensures t in Step(s, a).h.finished ==> Started(s, t)
  {
    hide Control, WorkerStep, DispatcherStep, ClientStep, Started;
    StartedMeans(s, t);
    match a
    case WorkerAct(i) => WorkerStarted(s, i, t);
    case ClientAct(c) =>
      ClientRunning(s, c);
      OthersStarted(s, Step(s, a), t);
    case DispatcherAct =>
      DispatcherRunning(s);
      OthersStarted(s, Step(s, a), t);
    case Enter(_, _) => OthersStarted(s, Step(s, a), t);
    case Return(_) => OthersStarted(s, Step(s, a), t);
    case SpuriousDispatcher => OthersStarted(s, Step(s, a), t);
    case SpuriousWorker(i) => OthersStarted(s, Step(s, a), t);
  }

  lemma StartedMeans(s: State, t: Task)
    ensures Started(s, t) <==> t in s.h.finished || Running(s, t)
  {
  }

  /** At some moment of the run a worker was running the task. */
  ghost predicate WasRun(size: nat, clients: nat, acts: seq<Action>, t: Task)
  {
    exists k :: 0 <= k <= |acts| && Running(After(size, clients, acts[..k]), t)
  }

  /** A task has been run, or is being run, exactly if it is finished, or still running; in
      particular no task that was discarded, drained or rejected has ever been started. */
  lemma FinishedTasksWereRun(size: nat, clients: nat, acts: seq<Action>, t: Task)
    requires IsRun(size, clients, acts)
    ensures WasRun(size, clients, acts, t) <==> Started(After(size, clients, acts), t)
    ensures var h := After(size, clients, acts).h;
      t in h.discarded || t in h.drained || t in h.rejected ==> !WasRun(size, clients, acts, t)
  {
    hide Step, Enabled, Control, Started, Running;
    InitControl(size, clients);
    NothingStarted(size, clients, t);
    forall s ensures Running(s, t) ==> Started(s, t) {
      StartedMeans(s, t);
    }
    forall s, a | Control(s) && Enabled(s, a)
      ensures Control(Step(s, a)) && (Started(s, t) ==> Started(Step(s, a), t))
      ensures Started(Step(s, a), t) ==> Started(s, t) || Running(Step(s, a), t)
    {
      StepControl(s, a);
      StepStarted(s, a, t);
      StartedMeans(Step(s, a), t);
    }
    EverWas(Enabled, Step, Control, (s: State) => Running(s, t), (s: State) => Started(s, t),
            Init(size, clients), acts);
    if Started(After(size, clients, acts), t) {
      RunGood(size, clients, acts);
      ExactlyOnePlace(size, clients, acts, t);
      StartedIsAPlace(After(size, clients, acts), t);
    }
  }

  lemma NothingStarted(size: nat, clients: nat, t: Task)
    ensures !Started(Init(size, clients), t)
  {
  }

  lemma StartedIsAPlace(s: State, t: Task)
    requires Started(s, t) && Places(s)[t] <= 1
    ensures t !in s.h.discarded && t !in s.h.drained && t !in s.h.rejected
  {
    if i :| Runs(s, t, i) {
      FilledHas(Slots(s.ms), i);
    }
    assert t in s.h.finished ==> multiset(s.h.finished)[t] > 0;
    assert t in s.h.discarded ==> multiset(s.h.discarded)[t] > 0;
    assert t in s.h.drained ==> multiset(s.h.drained)[t] > 0;
    assert t in s.h.rejected ==> multiset(s.h.rejected)[t] > 0;
  }

  // ---- What terminate has done when it returns ----

  /** The step in which a terminate of client `c` returns. */
  predicate TerminateReturns(s: State, c: nat)
  {
    && ClientEnabled(s, c) && ClientStep(s, c).clients[c].Idle?
    && !s.clients[c].Exec? && !s.clients[c].Query? && !s.clients[c].QueryPool? && !s.clients[c].QueryScan?
  }

  /** When terminate returns, the pool is stopped for ever, every worker has ended and no slot
      holds a task; the dispatcher is about to notice. */
  lemma TerminateStopsEverything(size: nat, clients: nat, acts: seq<Action>, c: nat)
    requires IsRun(size, clients, acts) && TerminateReturns(After(size, clients, acts), c)
    ensures var s := ClientStep(After(size, clients, acts), c); (
      && !s.go && !s.listed && (forall i :: 0 <= i < |s.ms| ==> s.ms[i].pc.Exited? && s.ms[i].task.None?)
      && (s.disp.DExited? || s.disp.DReady? || (s.disp.DAsleep? && s.disp.signalled)))
  {
    hide Control;
    var s := After(size, clients, acts);
    RunControl(size, clients, acts);
    StepControl(s, ClientAct(c));
    ReturnLeadsHere(s, c);
    StoppedPool(ClientStep(s, c));
  }

  lemma ReturnLeadsHere(s: State, c: nat)
    requires Control(s) && TerminateReturns(s, c)
    ensures !ClientStep(s, c).go && !ClientStep(s, c).listed
  {
    assert ClientOk(s, s.clients[c]);
  }

  lemma StoppedPool(s: State)
    requires Control(s) && !s.go && !s.listed
    ensures forall i :: 0 <= i < |s.ms| ==> s.ms[i].pc.Exited? && s.ms[i].task.None?
    ensures s.disp.DExited? || s.disp.DReady? || (s.disp.DAsleep? && s.disp.signalled)
  {
    forall i | 0 <= i < |s.ms| ensures s.ms[i].pc.Exited? && s.ms[i].task.None? {
      assert ManagerOk(s.ms[i]);
    }
  }
}
