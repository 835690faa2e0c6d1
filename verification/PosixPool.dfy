/** The queued thread pool of posix/threadpool.cpp as a step system.

    One step is one section executed under a lock that nothing else can
    interrupt, or one wake-up.  A task manager's worker keeps its own lock from
    the moment it finds a task until it sleeps again, and the dispatcher keeps the
    queue lock for a whole scan of the managers, so both are split into the steps
    at which they meet other locks.  Condition variables are Mesa-style: a signal
    reaches a sleeper or is lost, and a sleeper may wake without one. */
module PosixPool {
  import opened Prelude

  type Task = nat

  // ---- Task managers: one worker thread and one task slot each ----

  /** Ready wants the manager's lock; Running and Notifying hold it. */
  datatype WorkerPc = Ready | Asleep(signalled: bool) | Running | Notifying | Exited

  datatype Manager = Manager(pc: WorkerPc, task: Option<Task>, go: bool)

  const STARTED := Manager(Ready, None, true)

  predicate HoldsLock(m: Manager) { m.pc.Running? || m.pc.Notifying? }

  function Notified(m: Manager): Manager
  {
    if m.pc.Asleep? then m.(pc := Asleep(true)) else m
  }

  /** set_task: fill an empty slot and notify; leave a filled one alone. */
  function SetTask(m: Manager, t: Task): Manager
  {
    if m.task.None? then Notified(m.(task := Some(t))) else m
  }

  /** stop: clear the flag, without a notification. */
  function Stop(m: Manager): Manager { m.(go := false) }

  /** The locked section of ~TaskManager. */
  function Retire(m: Manager): Manager { Notified(m.(go := false)) }

  /** The head of the worker loop, evaluated with the lock held: start the task,
      sleep, or leave the loop, deleting a task that was never started. */
  function LoopHead(m: Manager): Manager
  {
    if m.go && m.task.Some? then m.(pc := Running)
    else if m.go then m.(pc := Asleep(false))
    else Manager(Exited, None, false)
  }

  function Slots(ms: seq<Manager>): (slots: seq<Option<Task>>)
  {
    seq(|ms|, i requires 0 <= i < |ms| => ms[i].task)
  }

  // ---- The dispatcher thread ----

  /** `peek` is the task taken with queue.front() in the inner loop.  DReady wants
      the queue lock; DScan holds it, at manager i of a scan that assigns t,
      `idle` meaning that i has just answered is_idle with true. */
  datatype Dispatcher =
    | DReady(peek: Option<Task>)
    | DAsleep(peek: Option<Task>, signalled: bool)
    | DScan(t: Task, i: nat, idle: bool)
    | DExited

  function Signal(d: Dispatcher): Dispatcher
  {
    if d.DAsleep? then d.(signalled := true) else d
  }

  // ---- Calls into the pool ----

  /** Where a client thread is.  The destructor is a terminate that goes on. */
  datatype Client =
    | Idle
    | Exec(t: Task)                        // wants the queue lock
    | Query                                // is_idle: wants the queue lock
    | QueryPool                            // holds the queue lock, wants the pool lock
    | QueryScan(i: nat)                    // holds both, at manager i
    | Answered(idle: bool)                 // is_idle has returned
    | TermQueue(destroy: bool)             // terminate: wants the queue lock
    | TermPool(destroy: bool)              // holds it, wants the pool lock
    | TermStop(destroy: bool, i: nat)      // holds both, about to stop manager i
    | TermDelete(destroy: bool, i: nat)    // holds both, about to delete manager i
    | TermJoin(destroy: bool, i: nat)      // holds both, joining the worker of i
    | JoinDispatcher                       // ~QueuedThreadPool: thread.join()
    | Drain                                // EmptyQueue: wants the queue lock
    | FinalPool(left: nat)                 // ThreadPool::terminate: wants the pool lock
    | Destroyed

  predicate HoldsQueue(c: Client)
  {
    c.QueryPool? || c.QueryScan? || c.TermPool? || c.TermStop? || c.TermDelete? || c.TermJoin?
  }

  predicate HoldsPool(c: Client)
  {
    c.QueryScan? || c.TermStop? || c.TermDelete? || c.TermJoin?
  }

  function Pending(cs: seq<Client>): (slots: seq<Option<Task>>)
  {
    seq(|cs|, i requires 0 <= i < |cs| => if cs[i].Exec? then Some(cs[i].t) else None)
  }

  function AfterTerminate(destroy: bool): Client { if destroy then JoinDispatcher else Idle }

  // ---- The pool ----

  datatype Owner = Dispatching | Calling(c: nat)

  /** What has happened to the tasks.  Every `delete` of a task appends it to one of
      the last four sequences: after its run, in a worker that leaves, in an execute
      that comes too late, or in the final EmptyQueue. */
  datatype History = History(
    submitted: set<Task>, accepted: seq<Task>, dispatched: seq<Task>,
    finished: seq<Task>, discarded: seq<Task>, rejected: seq<Task>, drained: seq<Task>)

  /** The fields of the pool, its locks, its threads and its clients. */
  datatype State = State(
    queue: seq<Task>, go: bool, ms: seq<Manager>, listed: bool,
    ql: Option<Owner>, pl: Option<Owner>,
    disp: Dispatcher, joined: bool,
    clients: seq<Client>, destroying: bool,
    h: History)

  function Init(size: nat, clients: nat): State
  {
    State([], true, seq(size, i => STARTED), true, None, None,
          DReady(None), false, seq(clients, i => Idle), false,
          History({}, [], [], [], [], [], []))
  }

  datatype Call = Execute(t: Task) | AskIdle | Terminate | Destroy

  datatype Action =
    | Enter(c: nat, call: Call)
    | Return(c: nat)
    | ClientAct(c: nat)
    | DispatcherAct
    | WorkerAct(i: nat)
    | SpuriousDispatcher
    | SpuriousWorker(i: nat)

  // ---- Steps of a worker ----

  predicate WorkerEnabled(m: Manager)
  {
    m.pc == Asleep(true) || m.pc.Ready? || m.pc.Running? || m.pc.Notifying?
  }

  function SetManager(s: State, i: nat, m: Manager): State
    requires i < |s.ms|
  {
    s.(ms := s.ms[i := m])
  }

  /** The task that a worker deletes in its next step. */
  function Deletes(m: Manager): Option<Task>
  {
    if m.pc.Running? || (m.pc.Ready? && !m.go) then m.task else None
  }

  function WorkerNext(m: Manager): Manager
    requires WorkerEnabled(m)
  {
    match m.pc
    case Asleep(_) => m.(pc := Ready)
    case Running => Manager(Notifying, None, m.go)
    case _ => LoopHead(m)
  }

  function Delete(h: History, m: Manager): History
  {
    if Deletes(m).None? then h
    else if m.pc.Running? then h.(finished := h.finished + [m.task.value])
    else h.(discarded := h.discarded + [m.task.value])
  }

  function WorkerStep(s: State, i: nat): State
    requires i < |s.ms| && WorkerEnabled(s.ms[i])
  {
    var m := s.ms[i];
    SetManager(s, i, WorkerNext(m))
      .(h := Delete(s.h, m), disp := if m.pc.Notifying? then Signal(s.disp) else s.disp)
  }

  // ---- Steps of the dispatcher ----

  predicate DispatcherEnabled(s: State)
  {
    match s.disp
    case DReady(_) => s.ql.None?
    case DAsleep(_, signalled) => signalled
    case DScan(_, i, _) => i < |s.ms| ==> !HoldsLock(s.ms[i])
    case DExited => false
  }

  /** Where the dispatcher's loops lead with the queue lock in hand. */
  function Resume(s: State, peek: Option<Task>): State
  {
    if !s.go then s.(disp := DExited, ql := None)
    else if peek.Some? then s.(disp := DScan(peek.value, 0, false), ql := Some(Dispatching))
    else if s.queue != [] then s.(disp := DScan(s.queue[0], 0, false), ql := Some(Dispatching))
    else s.(disp := DAsleep(None, false), ql := None)
  }

  /** set_task succeeded: pop the queue, whatever is at its front. */
  function Assigned(s: State, t: Task, i: nat): State
    requires i < |s.ms|
  {
    SetManager(s, i, SetTask(s.ms[i], t))
      .(queue := if s.queue == [] then [] else s.queue[1..], h := s.h.(dispatched := s.h.dispatched + [t]))
  }

  function DispatcherStep(s: State): State
    requires DispatcherEnabled(s)
  {
    match s.disp
    case DReady(peek) => Resume(s, peek)
    case DAsleep(peek, _) => s.(disp := DReady(peek))
    case DScan(t, i, idle) =>
      if i >= |s.ms| then s.(disp := DAsleep(Some(t), false), ql := None)
      else if s.ms[i].task.Some? then s.(disp := DScan(t, i + 1, false))
      else if !idle then s.(disp := DScan(t, i, true))
      else Resume(Assigned(s, t, i), None)
    case DExited => s
  }

  // ---- Steps of the clients ----

  /** Client `c` goes to position `k`, taking and giving back the locks that its old
      and its new position differ in. */
  function Move(s: State, c: nat, k: Client): State
    requires c < |s.clients|
  {
    s.(clients := s.clients[c := k],
       ql := if HoldsQueue(k) then Some(Calling(c)) else if HoldsQueue(s.clients[c]) then None else s.ql,
       pl := if HoldsPool(k) then Some(Calling(c)) else if HoldsPool(s.clients[c]) then None else s.pl)
  }

  predicate EnterEnabled(s: State, c: nat, call: Call)
  {
    && c < |s.clients| && s.clients[c].Idle? && !s.destroying
    && (call.Execute? ==> call.t !in s.h.submitted)
    && (call.Destroy? ==> forall d :: 0 <= d < |s.clients| ==> s.clients[d].Idle?)
  }

  function EnterStep(s: State, c: nat, call: Call): State
    requires EnterEnabled(s, c, call)
  {
    match call
    case Execute(t) => Move(s, c, Exec(t)).(h := s.h.(submitted := s.h.submitted + {t}))
    case AskIdle => Move(s, c, Query)
    case Terminate => Move(s, c, TermQueue(false))
    case Destroy => Move(s, c, TermQueue(true)).(destroying := true)
  }

  predicate ClientEnabled(s: State, c: nat)
  {
    c < |s.clients| &&
    match s.clients[c]
    case Idle => false
    case Answered(_) => false
    case Destroyed => false
    case Exec(_) => s.ql.None?
    case Query => s.ql.None?
    case TermQueue(_) => s.ql.None?
    case Drain => s.ql.None?
    case QueryPool => s.pl.None?
    case TermPool(_) => s.pl.None?
    case FinalPool(_) => s.pl.None?
    case QueryScan(i) => i < |s.ms| ==> !HoldsLock(s.ms[i])
    case TermStop(_, i) => i < |s.ms| ==> !HoldsLock(s.ms[i])
    case TermDelete(_, i) => i < |s.ms| ==> !HoldsLock(s.ms[i])
    case TermJoin(_, i) => i < |s.ms| ==> s.ms[i].pc.Exited?
    case JoinDispatcher => s.disp.DExited?
  }

  /** What the client's next section does to the shared fields. */
  function Effect(s: State, k: Client): State
  {
    match k
    case Exec(t) =>
      if !s.go then s.(h := s.h.(rejected := s.h.rejected + [t]))
      else s.(queue := s.queue + [t], h := s.h.(accepted := s.h.accepted + [t]), disp := Signal(s.disp))
    case TermQueue(_) => s.(go := false, disp := Signal(s.disp))
    case TermStop(_, i) => if i < |s.ms| then SetManager(s, i, Stop(s.ms[i])) else s
    case TermDelete(_, i) => if i < |s.ms| then SetManager(s, i, Retire(s.ms[i])) else s.(listed := false)
    case JoinDispatcher => s.(joined := true)
    case Drain => s.(h := s.h.(drained := s.h.drained + s.queue), queue := [])
    case _ => s
  }

  /** Where that section leads. */
  function Next(s: State, k: Client): Client
  {
    match k
    case Query => if s.joined || s.queue != [] then Answered(false) else QueryPool
    case QueryPool => if !s.listed || s.ms == [] then Answered(false) else QueryScan(0)
    case QueryScan(i) =>
      if i >= |s.ms| then Answered(true)
      else if s.ms[i].task.None? then QueryScan(i + 1)
      else Answered(false)
    case TermQueue(d) => TermPool(d)
    case TermPool(d) => if s.listed then TermStop(d, 0) else AfterTerminate(d)
    case TermStop(d, i) => if i < |s.ms| then TermStop(d, i + 1) else TermDelete(d, 0)
    case TermDelete(d, i) => if i < |s.ms| then TermJoin(d, i) else AfterTerminate(d)
    case TermJoin(d, i) => TermDelete(d, i + 1)
    case JoinDispatcher => Drain
    case Drain => FinalPool(1)
    case FinalPool(left) => if left > 0 then FinalPool(left - 1) else Destroyed
    case _ => Idle
  }

  function ClientStep(s: State, c: nat): State
    requires ClientEnabled(s, c)
  {
    Move(Effect(s, s.clients[c]), c, Next(s, s.clients[c]))
  }

  // ---- All steps ----

  predicate Enabled(s: State, a: Action)
  {
    match a
    case Enter(c, call) => EnterEnabled(s, c, call)
    case Return(c) => c < |s.clients| && s.clients[c].Answered?
    case ClientAct(c) => ClientEnabled(s, c)
    case DispatcherAct => DispatcherEnabled(s)
    case WorkerAct(i) => i < |s.ms| && WorkerEnabled(s.ms[i])
    case SpuriousDispatcher => s.disp.DAsleep?
    case SpuriousWorker(i) => i < |s.ms| && s.ms[i].pc.Asleep?
  }

  function Step(s: State, a: Action): State
  {
    if !Enabled(s, a) then s else
    match a
    case Enter(c, call) => EnterStep(s, c, call)
    case Return(c) => Move(s, c, Idle)
    case ClientAct(c) => ClientStep(s, c)
    case DispatcherAct => DispatcherStep(s)
    case WorkerAct(i) => WorkerStep(s, i)
    case SpuriousDispatcher => s.(disp := DReady(s.disp.peek))
    case SpuriousWorker(i) => SetManager(s, i, s.ms[i].(pc := Ready))
  }

  predicate IsRun(size: nat, clients: nat, acts: seq<Action>)
  {
    CanRun(Enabled, Step, Init(size, clients), acts)
  }

  function After(size: nat, clients: nat, acts: seq<Action>): State
  {
    Run(Step, Init(size, clients), acts)
  }
}
