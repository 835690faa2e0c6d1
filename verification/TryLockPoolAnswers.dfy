/** What the try-lock pool owes to its callers: what is_idle answers, which tasks it runs, and
    what its calls have achieved when they are over. */
module TryLockPoolAnswers {
  import opened Prelude
  import opened TryLockPool
  import opened TryLockPoolTheorems

  // ---- What is_idle answers ----

  /** The step in which an is_idle of client `c` is answered. */
  predicate Answers(s: State, c: nat)
  {
    ClientEnabled(s, c) && s.clients[c].AskScan? && ClientStep(s, c).clients[c].Answered?
  }

  ghost predicate AllDeleted(h: History) { multiset(h.placed) == multiset(h.finished) + multiset(h.discarded) }

  lemma TaskInASlot(s: State, i: nat)
    requires PlacedKept(s.h, s.ms) && i < |s.ms| && s.ms[i].task.Some?
    ensures !AllDeleted(s.h)
  {
    FilledHas(Slots(s.ms), i);
    var t := s.ms[i].task.value;
    assert multiset(s.h.placed)[t] > (multiset(s.h.finished) + multiset(s.h.discarded))[t];
  }

  lemma NoMeansWork(s: State, c: nat)
    requires Good(s) && Answers(s, c) && ClientStep(s, c).clients[c] == Answered(false)
    requires forall i :: 0 <= i < |s.ms| ==> s.ms[i].go
    ensures ClientStep(s, c).h == s.h && !AllDeleted(s.h)
  {
    hide SubmittedKept, PlacedKept;
    var i := s.clients[c].i;
    assert ClientOk(s.ms, s.clients[c]) && ManagerOk(s.ms[i]);
    TaskInASlot(s, i);
  }

  /** While no manager has been stopped, is_idle answers yes if and only if, when it answers,
      every task whose execute has returned has been run and deleted. */
  lemma IdleAnswerIsExact(size: nat, clients: nat, acts: seq<Action>, c: nat)
    requires IsRun(size, clients, acts) && Answers(After(size, clients, acts), c)
    requires forall i :: 0 <= i < |After(size, clients, acts).ms| ==> After(size, clients, acts).ms[i].go
    ensures var s := ClientStep(After(size, clients, acts), c); s.clients[c].idle <==> AllDeleted(s.h)
  {
    var s := After(size, clients, acts);
    RunGood(size, clients, acts);
    if ClientStep(s, c).clients[c].idle {
      IdleIsASnapshot(size, clients, acts, c);
    } else {
      NoMeansWork(s, c);
    }
  }

  // ---- What is run ----

  predicate Runs(s: State, t: Task, i: nat) { i < |s.ms| && s.ms[i].pc.Running? && s.ms[i].task == Some(t) }

  ghost predicate Running(s: State, t: Task) { exists i :: Runs(s, t, i) }

  ghost predicate Started(s: State, t: Task) { t in s.h.finished || Running(s, t) }

  lemma WorkerStarted(s: State, i: nat, t: Task)
    requires Control(s) && WorkerEnabled(s, i)
    ensures Started(s, t) ==> Started(WorkerStep(s, i), t)
    ensures t in WorkerStep(s, i).h.finished ==> Started(s, t)
  {
    hide LoopHead;
    var s' := WorkerStep(s, i);
    if t in s'.h.finished && t !in s.h.finished {
      assert Runs(s, t, i);
    }
    if j :| Runs(s, t, j) {
      assert j != i ==> Runs(s', t, j);
    }
  }

  /** A change to the managers that touches no running one. */
  ghost predicate RunningKept(s: State, s': State)
  {
    && s'.h.finished == s.h.finished && |s'.ms| == |s.ms|
    && forall i :: 0 <= i < |s.ms| && s.ms[i].pc.Running? ==> s'.ms[i].pc.Running? && s'.ms[i].task == s.ms[i].task
  }

  lemma OthersStarted(s: State, s': State, t: Task)
    requires RunningKept(s, s')
    ensures Started(s, t) ==> Started(s', t)
  {
    if i :| Runs(s, t, i) {
      assert Runs(s', t, i);
    }
  }

  lemma ClientRunning(s: State, c: nat)
    requires ClientEnabled(s, c)
    ensures RunningKept(s, ClientStep(s, c))
  {
    hide Next;
  }

  lemma StepStarted(s: State, a: Action, t: Task)
    requires Control(s) && Enabled(s, a)
    ensures Started(s, t) ==> Started(Step(s, a), t)
    ensures t in Step(s, a).h.finished ==> Started(s, t)
  {
    hide Control, WorkerStep, ClientStep, Started;
    StartedMeans(s, t);
    match a
    case WorkerAct(i) => WorkerStarted(s, i, t);
    case ClientAct(c) =>
      ClientRunning(s, c);
      OthersStarted(s, Step(s, a), t);
    case Enter(_, _) => OthersStarted(s, Step(s, a), t);
    case Return(_) => OthersStarted(s, Step(s, a), t);
    case SpuriousWorker(i) => OthersStarted(s, Step(s, a), t);
  }

  lemma StartedMeans(s: State, t: Task)
    ensures Started(s, t) <==> t in s.h.finished || Running(s, t)
  {
  }

  /** At some moment of the run a worker was running the task. */
  ghost predicate WasRun(size: nat, clients: nat, acts: seq<Action>, t: Task)
  {
    exists k :: 0 <= k <= |acts| && Running(After(size, clients, acts[..k]), t)
  }

  lemma StartedIsAPlace(s: State, t: Task)
    requires Started(s, t)
    requires Filled(Slots(s.ms))[t] + multiset(s.h.finished)[t] + multiset(s.h.discarded)[t] <= 1
    ensures t !in s.h.discarded
  {
    if i :| Runs(s, t, i) {
      FilledHas(Slots(s.ms), i);
    }
    assert t in s.h.finished ==> multiset(s.h.finished)[t] > 0;
    assert t in s.h.discarded ==> multiset(s.h.discarded)[t] > 0;
  }

  /** A task has been run, or is being run, exactly if it is finished, or still running; no
      discarded task has ever been started. */
  lemma FinishedTasksWereRun(size: nat, clients: nat, acts: seq<Action>, t: Task)
    requires IsRun(size, clients, acts)
    ensures WasRun(size, clients, acts, t) <==> Started(After(size, clients, acts), t)
    ensures t in After(size, clients, acts).h.discarded ==> !WasRun(size, clients, acts, t)
  {
    hide Step, Enabled, Control, Started, Running;
    InitControl(size, clients);
    NothingStarted(size, clients, t);
    forall s ensures Running(s, t) ==> Started(s, t) {
      StartedMeans(s, t);
    }
    forall s, a | Control(s) && Enabled(s, a)
      ensures Control(Step(s, a)) && (Started(s, t) ==> Started(Step(s, a), t))
      ensures Started(Step(s, a), t) ==> Started(s, t) || Running(Step(s, a), t)
    {
      StepControl(s, a);
      StepStarted(s, a, t);
      StartedMeans(Step(s, a), t);
    }
    EverWas(Enabled, Step, Control, (s: State) => Running(s, t), (s: State) => Started(s, t),
            Init(size, clients), acts);
    if Started(After(size, clients, acts), t) {
      ExactlyOnePlace(size, clients, acts, t);
      StartedIsAPlace(After(size, clients, acts), t);
    }
  }

  lemma NothingStarted(size: nat, clients: nat, t: Task)
    ensures !Started(Init(size, clients), t)
  {
  }

  // ---- What a call has achieved ----

  predicate Own(s: State, a: Action) { Enabled(s, a) && (a.ClientAct? || a.WorkerAct?) }

  /** Where a call is, or what it has led to. */
  ghost predicate Follows(s: State, c: nat, call: Call)
  {
    c < |s.clients| && var k := s.clients[c];
    match call
    case Execute(t) => PendingTask(k) == Some(t) || (k.Out? && t in s.h.placed)
    case IsPoolIdle => k.Ask? || k.AskScan? || k.Answered?
    case Terminate => k.Term? || k.TermStop? || (k.Out? && forall i :: 0 <= i < |s.ms| ==> !s.ms[i].go)
    case Destroy => Destroys(k)
  }

  lemma OwnMove(s: State, c: nat, call: Call)
    requires Control(s) && ClientEnabled(s, c) && Follows(s, c, call)
    ensures Follows(ClientStep(s, c), c, call)
  {
    hide LocksOk;
    assert ClientOk(s.ms, s.clients[c]);
  }

  /** A step that leaves client `c` where it is. */
  lemma OtherMove(s: State, s': State, c: nat, call: Call)
    requires Follows(s, c, call) && c < |s'.clients| && s'.clients[c] == s.clients[c]
    requires s.h.placed <= s'.h.placed && |s'.ms| == |s.ms|
    requires forall i :: 0 <= i < |s.ms| && !s.ms[i].go ==> !s'.ms[i].go
    ensures Follows(s', c, call)
  {
  }

  lemma StepElsewhere(s: State, c: nat, a: Action)
    requires Own(s, a) && a != ClientAct(c) && c < |s.clients|
    ensures var s' := Step(s, a); (
      && c < |s'.clients| && s'.clients[c] == s.clients[c] && s.h.placed <= s'.h.placed && |s'.ms| == |s.ms|
      && forall i :: 0 <= i < |s.ms| && !s.ms[i].go ==> !s'.ms[i].go)
  {
    hide Next;
  }

  lemma FollowsStep(s: State, c: nat, call: Call, a: Action)
    requires Control(s) && Follows(s, c, call) && Own(s, a)
    ensures Follows(Step(s, a), c, call)
  {
    hide Control, ClientStep, WorkerStep;
    if a == ClientAct(c) {
      OwnMove(s, c, call);
    } else {
      StepElsewhere(s, c, a);
      OtherMove(s, Step(s, a), c, call);
    }
  }

  ghost predicate Achieved(s: State, c: nat, call: Call)
  {
    c < |s.clients| &&
    match call
    case Execute(t) => s.clients[c].Out? && t in s.h.placed
    case IsPoolIdle => s.clients[c].Answered?
    case Terminate => s.clients[c].Out? && forall i :: 0 <= i < |s.ms| ==> !s.ms[i].go
    case Destroy => s.clients[c].Destroyed? && forall i :: 0 <= i < |s.ms| ==> s.ms[i].pc.Exited?
  }

  /** Every call can be made, and where its pool has come to rest afterwards, it is over: the
      task is placed, is_idle is answered, every manager is stopped, or the pool is destroyed
      and every worker has ended. */
  lemma CallsAchieve(size: nat, clients: nat, acts: seq<Action>, c: nat, call: Call, more: seq<Action>)
    requires IsRun(size, clients, acts) && EnterEnabled(After(size, clients, acts), c, call)
    requires CanRun(Own, Step, Step(After(size, clients, acts), Enter(c, call)), more)
    requires AtRest(Run(Step, Step(After(size, clients, acts), Enter(c, call)), more))
    ensures Achieved(Run(Step, Step(After(size, clients, acts), Enter(c, call)), more), c, call)
  {
    hide Control, Step, Enabled, AtRest, Follows, EnterEnabled, Achieved;
    var s := After(size, clients, acts);
    RunControl(size, clients, acts);
    EnteredFollows(s, c, call);
    StepControl(s, Enter(c, call));
    var p := (s: State) => Control(s) && Follows(s, c, call);
    forall s, a | p(s) && Own(s, a) ensures p(Step(s, a)) {
      StepControl(s, a);
      FollowsStep(s, c, call, a);
    }
    RunKeeps(Own, Step, p, Step(s, Enter(c, call)), more);
    RestedCall(Run(Step, Step(s, Enter(c, call)), more), c, call);
  }

  lemma EnteredFollows(s: State, c: nat, call: Call)
    requires EnterEnabled(s, c, call)
    ensures Enabled(s, Enter(c, call)) && Follows(Step(s, Enter(c, call)), c, call)
  {
  }

  lemma RestedCall(s: State, c: nat, call: Call)
    requires Control(s) && AtRest(s) && Follows(s, c, call)
    ensures Achieved(s, c, call)
  {
    assert ClientOk(s.ms, s.clients[c]);
  }
}
