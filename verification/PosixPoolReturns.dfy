/** That every call into the queued pool comes back, and with what. */
module PosixPoolReturns {
  import opened Prelude
  import opened PosixPool
  import opened PosixPoolControl
  import opened PosixPoolTheorems
  import opened PosixPoolProgress
  import opened PosixPoolTermination
  import opened PosixPoolCalls

  /** A step that a thread of the pool or a client inside it takes on its own. */
  predicate Own(s: State, a: Action) { Enabled(s, a) && IsOwn(a) }

  lemma SomebodyMoves(s: State) returns (a: Action)
    requires !Quiet(s)
    ensures Own(s, a)
  {
    if DispatcherEnabled(s) {
      a := DispatcherAct;
    } else if i :| 0 <= i < |s.ms| && WorkerEnabled(s.ms[i]) {
      a := WorkerAct(i);
    } else {
      var c: nat :| ClientEnabled(s, c);
      a := ClientAct(c);
    }
  }

  /** Whoever is scheduled, the pool comes to rest. */
  lemma {:induction false} ComesToRest(s: State) returns (more: seq<Action>)
    requires Control(s)
    ensures CanRun(Own, Step, s, more) && Quiet(Run(Step, s, more))
    decreases Load(s)
  {
    hide Control, Step, Enabled, Quiet, Load;
    more := [];
    if !Quiet(s) {
      var a := SomebodyMoves(s);
      StepControl(s, a);
      OwnStepLowers(s, a);
      var rest := ComesToRest(Step(s, a));
      more := [a] + rest;
      assert more[1..] == rest;
    }
  }

  /** Where a call is, or what it has led to. */
  ghost predicate Follows(s: State, c: nat, call: Call)
  {
    c < |s.clients| && var k := s.clients[c];
    match call
    case Execute(t) => k == Exec(t) || (k.Idle? && (t in s.h.accepted || t in s.h.rejected))
    case AskIdle => k.Query? || k.QueryPool? || k.QueryScan? || k.Answered?
    case Terminate =>
      || (k.TermQueue? && !k.destroy) || (k.TermPool? && !k.destroy) || (k.TermStop? && !k.destroy)
      || (k.TermDelete? && !k.destroy) || (k.TermJoin? && !k.destroy) || (k.Idle? && !s.go && !s.listed)
    case Destroy => IsDestroyer(k)
  }

  lemma EffectListed(s: State, k: Client)
    ensures !s.listed ==> !Effect(s, k).listed
    ensures Effect(s, k).clients == s.clients
  {
    hide Signal, Stop, Retire;
  }

  lemma OwnMove(s: State, c: nat, call: Call)
    requires Control(s) && ClientEnabled(s, c) && Follows(s, c, call)
    ensures Follows(ClientStep(s, c), c, call)
  {
    hide LocksOk, DispatcherOk, ManagersOk, PhaseOk, DestroyOk;
    assert ClientOk(s, s.clients[c]);
  }

  /** A step that leaves client `c` where it is. */
  lemma OtherMove(s: State, s': State, c: nat, call: Call)
    requires Follows(s, c, call) && c < |s'.clients| && s'.clients[c] == s.clients[c]
    requires s.h.accepted <= s'.h.accepted && s.h.rejected <= s'.h.rejected
    requires (!s.go ==> !s'.go) && (!s.listed ==> !s'.listed)
    ensures Follows(s', c, call)
  {
  }

  lemma StepElsewhere(s: State, c: nat, a: Action)
    requires Own(s, a) && a != ClientAct(c) && c < |s.clients|
    ensures var s' := Step(s, a); c < |s'.clients| && s'.clients[c] == s.clients[c] && (!s.listed ==> !s'.listed)
  {
    hide Effect, Next, WorkerNext, SetTask;
    match a
    case ClientAct(d) => EffectListed(s, s.clients[d]);
    case DispatcherAct => DispatcherElsewhere(s);
    case WorkerAct(_) =>
  }

  lemma DispatcherElsewhere(s: State)
    requires DispatcherEnabled(s)
    ensures DispatcherStep(s).clients == s.clients && DispatcherStep(s).listed == s.listed
  {
    hide SetTask;
  }

  lemma FollowsStep(s: State, c: nat, call: Call, a: Action)
    requires Control(s) && Follows(s, c, call) && Own(s, a)
    ensures Follows(Step(s, a), c, call)
  {
    hide Control, ClientStep, DispatcherStep, WorkerStep;
    if a == ClientAct(c) {
      OwnMove(s, c, call);
    } else {
      StepElsewhere(s, c, a);
      StepAnswers(s, a);
      OtherMove(s, Step(s, a), c, call);
    }
  }

  /** What a call has achieved when nothing in the pool can move any more. */
  ghost predicate Completed(s: State, c: nat, call: Call)
  {
    c < |s.clients| && var k := s.clients[c];
    match call
    case Execute(t) => k.Idle? && (t in s.h.accepted || t in s.h.rejected)
    case AskIdle => k.Answered?
    case Terminate => k.Idle? && !s.go && forall i :: 0 <= i < |s.ms| ==> s.ms[i].pc.Exited?
    case Destroy => k.Destroyed?
  }

  lemma RestedCall(s: State, c: nat, call: Call)
    requires Control(s) && AtRest(s) && Follows(s, c, call)
    ensures Completed(s, c, call)
  {
  }

  /** From every reachable state every call can be made, and whichever threads are scheduled
      afterwards, the pool comes to rest with the call completed: the task accepted or
      rejected, is_idle answered, the pool stopped with every worker ended, or destroyed. */
  lemma EveryCallCompletes(size: nat, clients: nat, acts: seq<Action>, c: nat, call: Call) returns (more: seq<Action>)
    requires IsRun(size, clients, acts) && EnterEnabled(After(size, clients, acts), c, call)
    ensures IsRun(size, clients, acts + [Enter(c, call)])
    ensures CanRun(Own, Step, After(size, clients, acts + [Enter(c, call)]), more)
    ensures Quiet(Run(Step, After(size, clients, acts + [Enter(c, call)]), more))
    ensures forall others: seq<Action> ::
              CanRun(Own, Step, After(size, clients, acts + [Enter(c, call)]), others)
              && Quiet(Run(Step, After(size, clients, acts + [Enter(c, call)]), others))
              ==> Completed(Run(Step, After(size, clients, acts + [Enter(c, call)]), others), c, call)
  {
    hide Control, Step, Quiet, AtRest, Completed, Follows, EnterEnabled;
    RunExtend(Enabled, Step, Init(size, clients), acts, Enter(c, call));
    RunControl(size, clients, acts + [Enter(c, call)]);
    var s := After(size, clients, acts + [Enter(c, call)]);
    EnteredFollows(After(size, clients, acts), c, call);
    more := ComesToRest(s);
    forall others: seq<Action> | CanRun(Own, Step, s, others) && Quiet(Run(Step, s, others))
      ensures Completed(Run(Step, s, others), c, call)
    {
      QuietCall(s, c, call, others);
    }
  }

  lemma EnteredFollows(s: State, c: nat, call: Call)
    requires EnterEnabled(s, c, call)
    ensures Follows(Step(s, Enter(c, call)), c, call)
  {
  }

  lemma QuietCall(s: State, c: nat, call: Call, others: seq<Action>)
    requires Control(s) && Follows(s, c, call) && CanRun(Own, Step, s, others) && Quiet(Run(Step, s, others))
    ensures Completed(Run(Step, s, others), c, call)
  {
    hide Control, Step, Quiet, AtRest, Completed, Follows, Enabled;
    var p := (s: State) => Control(s) && Follows(s, c, call);
    forall s, a | p(s) && Own(s, a) ensures p(Step(s, a)) {
      StepControl(s, a);
      FollowsStep(s, c, call, a);
    }
    RunKeeps(Own, Step, p, s, others);
    QuietRests(Run(Step, s, others));
    RestedCall(Run(Step, s, others), c, call);
  }

  lemma QuietRests(s: State)
    requires Control(s) && Quiet(s)
    ensures AtRest(s)
  {
    QuietLocks(s);
    forall c | 0 <= c < |s.clients|
      ensures s.clients[c].Idle? || s.clients[c].Answered? || s.clients[c].Destroyed?
    {
      assert !ClientEnabled(s, c) && ClientOk(s, s.clients[c]);
    }
  }

  /** A client that has been answered can make its next call. */
  lemma AnsweredClientReturns(size: nat, clients: nat, acts: seq<Action>, c: nat)
    requires IsRun(size, clients, acts) && c < |After(size, clients, acts).clients|
    requires After(size, clients, acts).clients[c].Answered?
    ensures IsRun(size, clients, acts + [Return(c)])
    ensures var s := After(size, clients, acts + [Return(c)]); (
      EnterEnabled(s, c, AskIdle) && s.h == After(size, clients, acts).h && s.queue == After(size, clients, acts).queue)
  {
    RunControl(size, clients, acts);
    RunExtend(Enabled, Step, Init(size, clients), acts, Return(c));
    NobodyDestroys(After(size, clients, acts), c);
  }

  lemma NobodyDestroys(s: State, c: nat)
    requires Control(s) && c < |s.clients| && s.clients[c].Answered?
    ensures !s.destroying
  {
  }
}
