/** What a sleeping dispatcher can have missed.

    It is woken by a new task, by a shutdown, and by every worker that announces the end of
    a task.  So while it sleeps unsignalled nothing of that kind has happened, and it sleeps
    for ever exactly if it fell asleep when no worker was busy. */
module PosixPoolWakeups {
  import opened Prelude
  import opened PosixPool
  import opened PosixPoolControl
  import opened PosixPoolProgress
  import opened PosixPoolStranding

  /** Its worker will announce the end of a task. */
  predicate Busy(m: Manager) { m.task.Some? || m.pc.Notifying? }

  ghost predicate NobodyBusy(ms: seq<Manager>) { forall i :: 0 <= i < |ms| ==> !Busy(ms[i]) }

  /** Task `t` was in slot `i` at first, and its worker is about to announce its end. */
  predicate Unannounced(s0: State, s: State, t: Task, i: nat)
  {
    i < |s0.ms| && i < |s.ms| && s0.ms[i].task == Some(t) && s.ms[i].pc.Notifying?
  }

  /** Nothing has happened since `s0` of which the dispatcher should know. */
  ghost predicate MissedNothing(s0: State, s: State)
  {
    && s.disp == s0.disp && s.go && s.h.accepted == s0.h.accepted && |s.ms| == |s0.ms|
    && (forall i :: 0 <= i < |s.ms| ==>
          s.ms[i].pc.Notifying? || (s.ms[i].task == s0.ms[i].task && !s0.ms[i].pc.Notifying?))
    && s0.h.finished <= s.h.finished
    && (forall t :: t in s.h.finished[|s0.h.finished|..] ==> exists i :: Unannounced(s0, s, t, i))
  }

  lemma MissedAtFirst(s: State)
    requires s.go
    ensures MissedNothing(s, s)
  {
  }

  lemma WorkerMissed(s0: State, s: State, i: nat)
    requires MissedNothing(s0, s) && i < |s.ms| && WorkerEnabled(s.ms[i]) && ManagerOk(s.ms[i]) && s.ms[i].go
    requires !s.ms[i].pc.Notifying?
    ensures MissedNothing(s0, WorkerStep(s, i))
  {
    var s' := WorkerStep(s, i);
    var n := |s0.h.finished|;
    forall t | t in s'.h.finished[n..] ensures exists j :: Unannounced(s0, s', t, j) {
      if t in s.h.finished[n..] {
        var j :| Unannounced(s0, s, t, j);
        assert Unannounced(s0, s', t, j);
      } else {
        assert Unannounced(s0, s', t, i);
      }
    }
  }

  lemma SameWorkersMissed(s0: State, s: State, s': State)
    requires MissedNothing(s0, s) && s'.disp == s.disp && s'.go && s'.h.accepted == s.h.accepted
    requires s'.h.finished == s.h.finished && |s'.ms| == |s.ms|
    requires forall i :: 0 <= i < |s.ms| ==>
               s'.ms[i].task == s.ms[i].task && (s'.ms[i].pc.Notifying? <==> s.ms[i].pc.Notifying?)
    ensures MissedNothing(s0, s')
  {
    forall t | t in s'.h.finished[|s0.h.finished|..] ensures exists i :: Unannounced(s0, s', t, i) {
      var i :| Unannounced(s0, s, t, i);
      assert Unannounced(s0, s', t, i);
    }
  }

  lemma EffectIsHeard(s: State, c: nat)
    requires Control(s) && s.go && s.disp.DAsleep? && ClientEnabled(s, c)
    ensures var s' := ClientStep(s, c); s'.disp.DAsleep? && (!s'.disp.signalled ==>
      s'.disp == s.disp && s'.ms == s.ms && s'.go && s'.h.accepted == s.h.accepted && s'.h.finished == s.h.finished)
  {
    assert ClientOk(s, s.clients[c]);
  }

  lemma StepMissed(s0: State, s: State, a: Action)
    requires Control(s) && MissedNothing(s0, s) && Enabled(s, a)
    requires Step(s, a).disp == s.disp && s.disp.DAsleep? && !s.disp.signalled
    ensures MissedNothing(s0, Step(s, a))
  {
    hide MissedNothing, Control;
    MissedFacts(s0, s);
    match a
    case ClientAct(c) =>
      EffectIsHeard(s, c);
      SameWorkersMissed(s0, s, Step(s, a));
    case WorkerAct(i) =>
      LiveWorker(s, i);
      WorkerMissed(s0, s, i);
    case SpuriousWorker(i) => SameWorkersMissed(s0, s, Step(s, a));
    case Enter(_, _) => SameWorkersMissed(s0, s, Step(s, a));
    case Return(_) => SameWorkersMissed(s0, s, Step(s, a));
    case DispatcherAct => assert false;
    case SpuriousDispatcher => assert false;
  }

  lemma MissedFacts(s0: State, s: State)
    requires MissedNothing(s0, s)
    ensures s.go
  {
  }

  lemma LiveWorker(s: State, i: nat)
    requires Control(s) && s.go && i < |s.ms|
    ensures ManagerOk(s.ms[i]) && s.ms[i].go
  {
    assert PhaseOf(s) == Live by {
      if s.pl.Some? {
        assert ClientOk(s, s.clients[s.pl.value.c]);
      }
    }
  }

  /** One sleep of the dispatcher, from the `k`th state of a run to its last. */
  ghost predicate OneSleep(size: nat, clients: nat, acts: seq<Action>, k: nat)
  {
    && IsRun(size, clients, acts) && k <= |acts|
    && (forall j :: k <= j <= |acts| ==> After(size, clients, acts[..j]).disp.DAsleep?)
    && After(size, clients, acts).disp.DAsleep? && !After(size, clients, acts).disp.signalled
  }

  /** While the dispatcher sleeps unsignalled, no task has been accepted, no shutdown has begun,
      and every worker that has finished a task since is still about to announce it. */
  lemma {:induction false} UnsignalledSleepMissesNothing(size: nat, clients: nat, acts: seq<Action>, k: nat)
    requires OneSleep(size, clients, acts, k)
    ensures MissedNothing(After(size, clients, acts[..k]), After(size, clients, acts))
    decreases |acts|
  {
    hide Step, Enabled, MissedNothing, Control;
    var s := After(size, clients, acts);
    assert acts[..|acts|] == acts;
    RunControl(size, clients, acts);
    if k == |acts| {
      SleepsInARunningPool(s);
      MissedAtFirst(s);
    } else {
      var before := acts[..|acts| - 1];
      RunPrefix(Enabled, Step, Init(size, clients), acts, |acts| - 1);
      RunControl(size, clients, before);
      SleepsOn(After(size, clients, before), acts[|acts| - 1]);
      forall j | k <= j <= |before| ensures After(size, clients, before[..j]).disp.DAsleep? {
        assert before[..j] == acts[..j];
      }
      assert before[..|before|] == before;
      UnsignalledSleepMissesNothing(size, clients, before, k);
      assert before[..k] == acts[..k];
      StepMissed(After(size, clients, acts[..k]), After(size, clients, before), acts[|acts| - 1]);
    }
  }

  lemma SleepsInARunningPool(s: State)
    requires Control(s) && s.disp.DAsleep? && !s.disp.signalled
    ensures s.go
  {
  }

  /** A sleeper that is unsignalled after a step has slept unsignalled before it. */
  lemma SleepsOn(s: State, a: Action)
    requires Enabled(s, a) && s.disp.DAsleep? && Step(s, a).disp.DAsleep? && !Step(s, a).disp.signalled
    ensures Step(s, a).disp == s.disp
  {
    hide WorkerNext, Delete, Next, Resume;
  }

  lemma FallsAsleep(s: State, a: Action)
    requires Enabled(s, a) && !s.disp.DAsleep? && Step(s, a).disp.DAsleep?
    ensures a.DispatcherAct? && !Step(s, a).disp.signalled
  {
    if a.DispatcherAct? {
      GoesToSleep(s);
    } else {
      OthersPutNobodyToSleep(s, a);
    }
  }

  lemma GoesToSleep(s: State)
    requires DispatcherEnabled(s) && !s.disp.DAsleep? && DispatcherStep(s).disp.DAsleep?
    ensures !DispatcherStep(s).disp.signalled
  {
    hide SetTask;
  }

  lemma OthersPutNobodyToSleep(s: State, a: Action)
    requires Enabled(s, a) && !a.DispatcherAct?
    ensures Step(s, a).disp.DAsleep? ==> s.disp.DAsleep?
  {
    hide WorkerNext, Delete, Next;
  }

  /** A dispatcher that sleeps in a pool at rest fell asleep when nobody was busy; with a
      task in hand, that is how a task is left behind. */
  lemma RestingDispatcherFoundNobodyBusy(size: nat, clients: nat, acts: seq<Action>) returns (k: nat)
    requires IsRun(size, clients, acts) && After(size, clients, acts).disp.DAsleep? && Quiet(After(size, clients, acts))
    ensures k < |acts| && acts[k].DispatcherAct? && OneSleep(size, clients, acts, k + 1)
    ensures !After(size, clients, acts[..k]).disp.DAsleep? && NobodyBusy(After(size, clients, acts[..k + 1]).ms)
  {
    hide Step, Enabled, MissedNothing, Control, Quiet;
    var s := After(size, clients, acts);
    RestsUnsignalled(s);
    k := LastSwitch(Enabled, Step, (s: State) => !s.disp.DAsleep?, Init(size, clients), acts);
    RunPrefix(Enabled, Step, Init(size, clients), acts, k);
    FallsAsleep(After(size, clients, acts[..k]), acts[k]);
    UnsignalledSleepMissesNothing(size, clients, acts, k + 1);
    RunControl(size, clients, acts);
    NobodyWasBusy(After(size, clients, acts[..k + 1]), s);
  }

  lemma RestsUnsignalled(s: State)
    requires s.disp.DAsleep? && Quiet(s)
    ensures !s.disp.signalled
  {
  }

  lemma NobodyWasBusy(s0: State, s: State)
    requires MissedNothing(s0, s) && Control(s) && Quiet(s)
    ensures NobodyBusy(s0.ms)
  {
    forall i | 0 <= i < |s.ms| ensures !Busy(s0.ms[i]) {
      assert ManagerOk(s.ms[i]) && !WorkerEnabled(s.ms[i]);
    }
  }

  // ---- Whether a sleeping dispatcher will be woken ----

  /** No new task, no shutdown, and no wake-up of the dispatcher for no reason. */
  predicate Undisturbed(s: State, a: Action)
  {
    && Enabled(s, a) && !a.SpuriousDispatcher? && !a.DispatcherAct?
    && (a.ClientAct? ==> !s.clients[a.c].Exec? && !s.clients[a.c].TermQueue?)
  }

  ghost predicate CanBeWoken(s: State)
  {
    exists more: seq<Action> ::
      CanRun(Undisturbed, Step, s, more) && Run(Step, s, more).disp.DAsleep? && Run(Step, s, more).disp.signalled
  }

  ghost predicate Forgotten(s: State, disp: Dispatcher)
  {
    Control(s) && s.go && s.disp == disp && NobodyBusy(s.ms)
  }

  lemma ForgottenStep(s: State, disp: Dispatcher, a: Action)
    requires Forgotten(s, disp) && disp.DAsleep? && !disp.signalled && Undisturbed(s, a)
    ensures Forgotten(Step(s, a), disp)
  {
    hide Control;
    StepControl(s, a);
    match a
    case ClientAct(c) => QuietEffect(s, c);
    case WorkerAct(i) => LiveWorker(s, i);
    case SpuriousWorker(_) =>
    case Enter(_, _) =>
    case Return(_) =>
  }

  lemma QuietEffect(s: State, c: nat)
    requires Control(s) && s.go && ClientEnabled(s, c) && !s.clients[c].Exec? && !s.clients[c].TermQueue?
    ensures var s' := ClientStep(s, c); s'.disp == s.disp && s'.ms == s.ms && s'.go
  {
    assert ClientOk(s, s.clients[c]);
  }

  function Rank(m: Manager): nat
  {
    match m.pc
    case Asleep(_) => 4
    case Ready => 3
    case Running => 2
    case Notifying => 1
    case Exited => 0
  }

  lemma BusyStep(s: State, i: nat)
    requires Control(s) && s.go && i < |s.ms| && Busy(s.ms[i]) && s.disp.DAsleep?
    ensures WorkerEnabled(s.ms[i])
    ensures var s' := WorkerStep(s, i); (
      && s'.go && s'.disp.DAsleep?
      && (s'.disp.signalled || (|s'.ms| == |s.ms| && Busy(s'.ms[i]) && Rank(s'.ms[i]) < Rank(s.ms[i]))))
  {
    LiveWorker(s, i);
  }

  lemma {:induction false} BusyWorkerAnnounces(s: State, i: nat) returns (more: seq<Action>)
    requires Control(s) && s.go && i < |s.ms| && Busy(s.ms[i]) && s.disp.DAsleep?
    ensures CanRun(Undisturbed, Step, s, more) && Run(Step, s, more).disp.DAsleep? && Run(Step, s, more).disp.signalled
    decreases Rank(s.ms[i])
  {
    hide Control, Busy, WorkerStep;
    BusyStep(s, i);
    StepControl(s, WorkerAct(i));
    var s' := Step(s, WorkerAct(i));
    var rest := [];
    if !s'.disp.signalled {
      rest := BusyWorkerAnnounces(s', i);
    }
    more := [WorkerAct(i)] + rest;
    assert more[1..] == rest;
  }

  /** A dispatcher that sleeps unsignalled will be woken by the workers themselves if and only
      if one of them is busy. */
  lemma WokenIfAndOnlyIfSomebodyIsBusy(size: nat, clients: nat, acts: seq<Action>)
    requires IsRun(size, clients, acts)
    requires After(size, clients, acts).disp.DAsleep? && !After(size, clients, acts).disp.signalled
    ensures CanBeWoken(After(size, clients, acts)) <==> !NobodyBusy(After(size, clients, acts).ms)
  {
    hide Control, Step, Undisturbed, CanRun, Run;
    var s := After(size, clients, acts);
    RunControl(size, clients, acts);
    SleepsInARunningPool(s);
    if !NobodyBusy(s.ms) {
      var i :| 0 <= i < |s.ms| && Busy(s.ms[i]);
      var more := BusyWorkerAnnounces(s, i);
    } else {
      forall more: seq<Action> | CanRun(Undisturbed, Step, s, more) ensures Run(Step, s, more).disp == s.disp {
        forall t, a | Forgotten(t, s.disp) && Undisturbed(t, a) ensures Forgotten(Step(t, a), s.disp) {
          ForgottenStep(t, s.disp, a);
        }
        RunKeeps(Undisturbed, Step, (t: State) => Forgotten(t, s.disp), s, more);
      }
    }
  }
}
