/** From where an execute of the try-lock pool can still return. */
module TryLockPoolLiveness {
  import opened Prelude
  import opened TryLockPool
  import opened TryLockPoolTheorems

  lemma Extend(size: nat, clients: nat, acts: seq<Action>, a: Action)
    requires IsRun(size, clients, acts) && Enabled(After(size, clients, acts), a)
    ensures IsRun(size, clients, acts + [a])
    ensures After(size, clients, acts + [a]) == Step(After(size, clients, acts), a)
  {
    RunExtend(Enabled, Step, Init(size, clients), acts, a);
  }

  // ---- An execute can always return while a worker is in its loop ----

  predicate InLoop(m: Manager) { !m.pc.Leaving? && !m.pc.Exited? }

  /** A worker in its loop that has room for a task, or has just left it. */
  predicate Roomy(m: Manager) { IsIdle(m) && Takes(m) }

  ghost predicate Inside(s: State, c: nat) { c < |s.clients| && PendingTask(s.clients[c]).Some? }

  /** A bound on the steps of a client until it gives the pool lock back. */
  function Remaining(s: State, c: nat): nat
  {
    if c >= |s.clients| then 0 else
    match s.clients[c]
    case Scan(_, i, idle) => if i <= |s.ms| then 2 * (|s.ms| - i) + (if idle then 0 else 1) else 0
    case AskScan(i) => if i <= |s.ms| then |s.ms| - i + 1 else 0
    case TermStop(i) => if i <= |s.ms| then |s.ms| - i + 1 else 0
    case _ => 0
  }

  /** One step of the client that holds the pool lock: it gets closer to giving it back,
      keeps the workers in their loops, and leaves the other clients where they are. */
  lemma HolderStep(s: State, d: nat)
    requires Control(s) && s.pl == Some(d)
    ensures d < |s.clients| && ClientEnabled(s, d)
    ensures var s' := ClientStep(s, d); (
      && |s'.ms| == |s.ms| && |s'.clients| == |s.clients|
      && (s'.pl.None? || (s'.pl == Some(d) && Control(s') && Remaining(s', d) < Remaining(s, d)))
      && (forall i :: 0 <= i < |s.ms| && InLoop(s.ms[i]) ==> InLoop(s'.ms[i]))
      && (forall c :: 0 <= c < |s.clients| && c != d ==> s'.clients[c] == s.clients[c])
      && (s'.clients[d].Out? || (Inside(s, d) ==> Inside(s', d))))
  {
    assert HoldsPool(s.clients[d]) && ClientOk(s.ms, s.clients[d]);
    ClientControl(s, d);
  }

  lemma PoolLockIsGivenBack(size: nat, clients: nat, acts0: seq<Action>, c: nat, i: nat) returns (acts: seq<Action>)
    requires IsRun(size, clients, acts0)
    requires var s := After(size, clients, acts0); Inside(s, c) && i < |s.ms| && InLoop(s.ms[i])
    ensures acts0 <= acts && IsRun(size, clients, acts)
    ensures var s := After(size, clients, acts); (
      c < |s.clients| && (s.clients[c].Out? || (Inside(s, c) && s.pl.None? && i < |s.ms| && InLoop(s.ms[i]))))
  {
    hide CanRun, Run, Control, ClientEnabled, Effect, Next, InLoop;
    acts := acts0;
    RunControl(size, clients, acts);
    var s := After(size, clients, acts);
    while s.pl.Some? && Inside(s, c)
      invariant acts0 <= acts && IsRun(size, clients, acts) && s == After(size, clients, acts) && Control(s)
      invariant c < |s.clients| && (s.clients[c].Out? || Inside(s, c)) && i < |s.ms| && InLoop(s.ms[i])
      decreases if s.pl.Some? then 1 else 0, if s.pl.Some? then Remaining(s, s.pl.value) else 0
    {
      var d := s.pl.value;
      HolderStep(s, d);
      Extend(size, clients, acts, ClientAct(d));
      acts := acts + [ClientAct(d)];
      s := After(size, clients, acts);
      RunControl(size, clients, acts);
    }
  }

  function Rank(m: Manager): nat
  {
    if Roomy(m) then 0 else
    match m.pc
    case Asleep(_) => 4
    case Ready => 3
    case Running => 2
    case Notifying => 1
    case Leaving => 0
    case Exited => 0
  }

  /** With the pool lock free, nothing keeps a worker in its loop from making room. */
  lemma TowardsRoom(s: State, i: nat)
    requires Control(s) && s.pl.None? && i < |s.ms| && InLoop(s.ms[i]) && !Roomy(s.ms[i])
    ensures WorkerEnabled(s, i)
    ensures var m := WorkerNext(s.ms[i]); Rank(m) < Rank(s.ms[i]) && (InLoop(m) || Roomy(m))
  {
    assert ManagerOk(s.ms[i]);
  }

  lemma WorkerMakesRoom(size: nat, clients: nat, acts0: seq<Action>, i: nat) returns (acts: seq<Action>)
    requires IsRun(size, clients, acts0)
    requires var s := After(size, clients, acts0); s.pl.None? && i < |s.ms| && InLoop(s.ms[i])
    ensures acts0 <= acts && IsRun(size, clients, acts)
    ensures var s := After(size, clients, acts); (
      s.pl.None? && i < |s.ms| && Roomy(s.ms[i]) && s.clients == After(size, clients, acts0).clients)
  {
    hide CanRun, Run, Control, WorkerNext, InLoop, Roomy, LogDelete;
    acts := acts0;
    ghost var s := After(size, clients, acts);
    while !Roomy(s.ms[i])
      invariant acts0 <= acts && IsRun(size, clients, acts) && s == After(size, clients, acts)
      invariant s.pl.None? && i < |s.ms| && (InLoop(s.ms[i]) || Roomy(s.ms[i]))
      invariant s.clients == After(size, clients, acts0).clients
      decreases Rank(s.ms[i])
    {
      RunControl(size, clients, acts);
      TowardsRoom(s, i);
      Extend(size, clients, acts, WorkerAct(i));
      acts := acts + [WorkerAct(i)];
      s := After(size, clients, acts);
    }
  }

  /** One step of a scan towards a manager with room. */
  ghost predicate Nearing(s: State, c: nat, i: nat)
  {
    && c < |s.clients| && i < |s.ms| && Roomy(s.ms[i]) && Inside(s, c)
    && (s.clients[c].Scan? ==> s.clients[c].i <= i) && (s.clients[c].Exec? || s.clients[c].Waiting? ==> s.pl.None?)
  }

  function Distance(s: State, c: nat): nat
  {
    if c < |s.clients| && s.clients[c].Scan? then Remaining(s, c)
    else if c < |s.clients| && s.clients[c].Exec? then 2 * |s.ms| + 2 else 2 * |s.ms| + 3
  }

  lemma NearingStep(s: State, c: nat, i: nat)
    requires Control(s) && Nearing(s, c, i)
    ensures ClientEnabled(s, c)
    ensures var s' := ClientStep(s, c); (
      c < |s'.clients| && (s'.clients[c].Out? || (Nearing(s', c, i) && Distance(s', c) < Distance(s, c))))
  {
    assert ClientOk(s.ms, s.clients[c]);
  }

  lemma ScanArrives(size: nat, clients: nat, acts0: seq<Action>, c: nat, i: nat) returns (acts: seq<Action>)
    requires IsRun(size, clients, acts0) && Nearing(After(size, clients, acts0), c, i)
    ensures acts0 <= acts && IsRun(size, clients, acts)
    ensures var s := After(size, clients, acts); c < |s.clients| && s.clients[c].Out?
  {
    hide CanRun, Run, Control, ClientEnabled, ClientStep, Distance;
    acts := acts0;
    ghost var s := After(size, clients, acts);
    while c < |s.clients| && !s.clients[c].Out?
      invariant acts0 <= acts && IsRun(size, clients, acts) && s == After(size, clients, acts)
      invariant c < |s.clients| && (s.clients[c].Out? || Nearing(s, c, i))
      decreases if s.clients[c].Out? then 0 else 1 + Distance(s, c)
    {
      RunControl(size, clients, acts);
      NearingStep(s, c, i);
      Extend(size, clients, acts, ClientAct(c));
      acts := acts + [ClientAct(c)];
      s := After(size, clients, acts);
    }
  }

  /** From every reachable state in which some worker is still in its loop, whatever the
      others do there, every execute under way has a continuation in which it returns. */
  lemma ExecuteCanReturn(size: nat, clients: nat, acts0: seq<Action>, c: nat, i: nat) returns (acts: seq<Action>)
    requires IsRun(size, clients, acts0)
    requires var s := After(size, clients, acts0); Inside(s, c) && i < |s.ms| && InLoop(s.ms[i])
    ensures acts0 <= acts && IsRun(size, clients, acts)
    ensures var s := After(size, clients, acts); c < |s.clients| && s.clients[c].Out?
  {
    hide CanRun, Run, InLoop, Roomy;
    acts := PoolLockIsGivenBack(size, clients, acts0, c, i);
    if !After(size, clients, acts).clients[c].Out? {
      acts := WorkerMakesRoom(size, clients, acts, i);
      RunControl(size, clients, acts);
      acts := ScanArrives(size, clients, acts, c, i);
    }
  }
}
