/** What the queued pool cannot get stuck in: circular waits, calls that never return,
    and shutdowns that never finish. */
module PosixPoolProgress {
  import opened Prelude
  import opened PosixPool
  import opened PosixPoolControl
  import opened PosixPoolSafety
  import opened PosixPoolTheorems

  // ---- No circular wait ----

  datatype Agent = TheDispatcher | TheClient(c: nat) | TheWorker(i: nat)

  function AgentOf(o: Owner): Agent { if o.Dispatching? then TheDispatcher else TheClient(o.c) }

  /** `a` cannot go on before `b` has given back a lock or ended. */
  ghost predicate WaitsFor(s: State, a: Agent, b: Agent)
  {
    match a
    case TheDispatcher =>
      || (s.disp.DReady? && s.ql.Some? && b == AgentOf(s.ql.value))
      || (s.disp.DScan? && s.disp.i < |s.ms| && HoldsLock(s.ms[s.disp.i]) && b == TheWorker(s.disp.i))
    case TheWorker(i) => false
    case TheClient(c) =>
      c < |s.clients| && !ClientEnabled(s, c) &&
      match s.clients[c]
      case Exec(_) => s.ql.Some? && b == AgentOf(s.ql.value)
      case Query => s.ql.Some? && b == AgentOf(s.ql.value)
      case TermQueue(_) => s.ql.Some? && b == AgentOf(s.ql.value)
      case Drain => s.ql.Some? && b == AgentOf(s.ql.value)
      case QueryPool => s.pl.Some? && b == AgentOf(s.pl.value)
      case TermPool(_) => s.pl.Some? && b == AgentOf(s.pl.value)
      case FinalPool(_) => s.pl.Some? && b == AgentOf(s.pl.value)
      case QueryScan(i) => b == TheWorker(i)
      case TermStop(_, i) => b == TheWorker(i)
      case TermDelete(_, i) => b == TheWorker(i)
      case TermJoin(_, i) => b == TheWorker(i)
      case JoinDispatcher => b == TheDispatcher
      case _ => false
  }

  /** Neither asleep, nor ended, nor outside. */
  predicate Active(s: State, a: Agent)
  {
    match a
    case TheDispatcher => s.disp.DReady? || s.disp.DScan?
    case TheWorker(i) => i < |s.ms| && s.ms[i].pc != Asleep(false) && !s.ms[i].pc.Exited?
    case TheClient(c) => c < |s.clients| && !s.clients[c].Idle? && !s.clients[c].Answered? && !s.clients[c].Destroyed?
  }

  predicate CanAct(s: State, a: Agent)
  {
    match a
    case TheDispatcher => DispatcherEnabled(s)
    case TheWorker(i) => i < |s.ms| && WorkerEnabled(s.ms[i])
    case TheClient(c) => ClientEnabled(s, c)
  }

  /** Whom an agent that cannot act waits for. */
  function Awaited(s: State, a: Agent): Agent
    requires Active(s, a) && !CanAct(s, a)
  {
    match a
    case TheDispatcher => if s.disp.DScan? then TheWorker(s.disp.i) else if s.ql.Some? then AgentOf(s.ql.value) else a
    case TheWorker(i) => a
    case TheClient(c) =>
      match s.clients[c]
      case JoinDispatcher => TheDispatcher
      case QueryScan(i) => TheWorker(i)
      case TermStop(_, i) => TheWorker(i)
      case TermDelete(_, i) => TheWorker(i)
      case TermJoin(_, i) => TheWorker(i)
      case QueryPool => if s.pl.Some? then AgentOf(s.pl.value) else a
      case TermPool(_) => if s.pl.Some? then AgentOf(s.pl.value) else a
      case FinalPool(_) => if s.pl.Some? then AgentOf(s.pl.value) else a
      case _ => if s.ql.Some? then AgentOf(s.ql.value) else a
  }

  /** These are all the waits there are: whoever is active can act or waits for another. */
  lemma ActsOrWaits(size: nat, clients: nat, acts: seq<Action>, a: Agent)
    requires IsRun(size, clients, acts) && Active(After(size, clients, acts), a)
    ensures CanAct(After(size, clients, acts), a) <==> !exists b :: WaitsFor(After(size, clients, acts), a, b)
  {
    var s := After(size, clients, acts);
    if !CanAct(s, a) {
      assert WaitsFor(s, a, Awaited(s, a));
    }
  }

  /** The place in the lock order of what a thread wants: the dispatcher's end, the queue
      lock, the pool lock, a worker's end, a manager's lock, nothing. */
  function Level(s: State, a: Agent): nat
  {
    match a
    case TheDispatcher => if s.disp.DReady? then 1 else if s.disp.DScan? then 4 else 5
    case TheWorker(_) => 5
    case TheClient(c) =>
      if c >= |s.clients| then 5 else
      match s.clients[c]
      case JoinDispatcher => 0
      case Exec(_) => 1
      case Query => 1
      case TermQueue(_) => 1
      case Drain => 1
      case QueryPool => 2
      case TermPool(_) => 2
      case FinalPool(_) => 2
      case TermJoin(_, _) => 3
      case QueryScan(_) => 4
      case TermStop(_, _) => 4
      case TermDelete(_, _) => 4
      case _ => 5
  }

  lemma WaitsUpward(s: State, a: Agent, b: Agent)
    requires LocksOk(s) && WaitsFor(s, a, b)
    ensures Level(s, a) < Level(s, b)
  {
  }

  lemma {:induction false} ChainClimbs(s: State, chain: seq<Agent>)
    requires LocksOk(s) && |chain| >= 2
    requires forall k :: 0 <= k < |chain| - 1 ==> WaitsFor(s, chain[k], chain[k + 1])
    ensures Level(s, chain[0]) < Level(s, chain[|chain| - 1])
  {
    WaitsUpward(s, chain[0], chain[1]);
    if |chain| > 2 {
      ChainClimbs(s, chain[1..]);
    }
  }

  /** Locks are taken in the order queue, pool, manager, and joins fit between them, so
      nobody waits, through however many others, for itself. */
  lemma NoCircularWait(size: nat, clients: nat, acts: seq<Action>, chain: seq<Agent>)
    requires IsRun(size, clients, acts) && |chain| >= 2
    requires forall k :: 0 <= k < |chain| - 1 ==> WaitsFor(After(size, clients, acts), chain[k], chain[k + 1])
    ensures chain[0] != chain[|chain| - 1]
  {
    RunControl(size, clients, acts);
    ChainClimbs(After(size, clients, acts), chain);
  }

  // ---- Quiescence ----

  /** No thread inside the pool can take a step of its own. */
  ghost predicate Quiet(s: State)
  {
    && !DispatcherEnabled(s)
    && (forall i :: 0 <= i < |s.ms| ==> !WorkerEnabled(s.ms[i]))
    && (forall c: nat :: !ClientEnabled(s, c))
  }

  ghost predicate AtRest(s: State)
  {
    && (s.disp.DExited? || (s.disp.DAsleep? && !s.disp.signalled))
    && (forall i :: 0 <= i < |s.ms| ==> s.ms[i].pc.Exited? || s.ms[i].pc == Asleep(false))
    && (forall c :: 0 <= c < |s.clients| ==> s.clients[c].Idle? || s.clients[c].Answered? || s.clients[c].Destroyed?)
  }

  /** Whoever holds the pool lock holds the queue lock too. */
  lemma PoolHolder(s: State)
    requires LocksOk(s)
    ensures s.pl.Some? ==> s.pl == s.ql
  {
    if s.pl.Some? {
      assert HoldsPool(s.clients[s.pl.value.c]);
    }
  }

  /** The client that holds the queue lock is held up by running tasks alone. */
  lemma HolderCanAct(s: State, c: nat)
    requires Control(s) && s.ql == Some(Calling(c))
    requires forall i :: 0 <= i < |s.ms| ==> s.ms[i].pc.Exited? || s.ms[i].pc == Asleep(false)
    ensures ClientEnabled(s, c)
  {
    PoolHolder(s);
    ShutdownPhase(s, c);
  }

  lemma QuietLocks(s: State)
    requires Control(s) && Quiet(s)
    ensures s.ql.None? && s.pl.None?
  {
    PoolHolder(s);
    if s.ql.Some? && s.ql.value.Calling? {
      HolderCanAct(s, s.ql.value.c);
    }
  }

  /** The pool comes to rest only where every call has returned, every worker sleeps or
      has left, and so does the dispatcher; and there it does rest. */
  lemma QuietMeansAtRest(size: nat, clients: nat, acts: seq<Action>)
    requires IsRun(size, clients, acts)
    ensures Quiet(After(size, clients, acts)) <==> AtRest(After(size, clients, acts))
  {
    var s := After(size, clients, acts);
    RunControl(size, clients, acts);
    if Quiet(s) {
      QuietLocks(s);
      forall c | 0 <= c < |s.clients|
        ensures s.clients[c].Idle? || s.clients[c].Answered? || s.clients[c].Destroyed?
      {
        assert !ClientEnabled(s, c) && ClientOk(s, s.clients[c]);
      }
    }
  }

  /** A destructor that has come to rest has returned. */
  lemma RestedDestructorIsDone(size: nat, clients: nat, acts: seq<Action>)
    requires IsRun(size, clients, acts) && AtRest(After(size, clients, acts)) && After(size, clients, acts).destroying
    ensures AllDeletedOnce(After(size, clients, acts).h, size)
  {
    var s := After(size, clients, acts);
    RunControl(size, clients, acts);
    var d :| Alone(s, d);
    DestructionIsComplete(size, clients, acts, d);
  }

  /** A running pool that has come to rest has served every accepted task, unless its
      dispatcher sleeps in the inner wait with a task in hand. */
  lemma RestedPoolHasServed(size: nat, clients: nat, acts: seq<Action>)
    requires IsRun(size, clients, acts) && AtRest(After(size, clients, acts)) && After(size, clients, acts).go
    ensures var s := After(size, clients, acts); (
      multiset(s.h.finished) == multiset(s.h.accepted) <==> s.disp == DAsleep(None, false))
  {
    RunGood(size, clients, acts);
    RestedLedger(After(size, clients, acts));
  }

  lemma AllFinished(h: History, queue: seq<Task>, ms: seq<Manager>)
    requires InOrder(h, queue, false) && DispatchedKept(h, ms) && Filled(Slots(ms)) == multiset{} && h.discarded == []
    ensures multiset(h.finished) == multiset(h.accepted) <==> queue == []
  {
    assert multiset(h.accepted) == multiset(h.dispatched) + multiset(queue);
    assert |multiset(h.accepted)| == |multiset(h.dispatched)| + |queue|;
  }

  lemma RestedLedger(s: State)
    requires Good(s) && AtRest(s) && s.go
    ensures multiset(s.h.finished) == multiset(s.h.accepted) <==> s.disp == DAsleep(None, false)
  {
    hide InOrder, DispatchedKept, SubmittedKept;
    assert PhaseOf(s) == Live by {
      assert s.listed && forall c :: 0 <= c < |s.clients| ==> !HoldsPool(s.clients[c]);
    }
    forall i | 0 <= i < |s.ms| ensures Slots(s.ms)[i].None? && ExitFlags(s.ms)[i] == 0 {
      assert ManagerOk(s.ms[i]);
    }
    FilledNone(Slots(s.ms));
    SumBound(ExitFlags(s.ms), 0);
    AllFinished(s.h, s.queue, s.ms);
  }
}
