/** The thread pool of threadpool.cpp, whose workers nest their locks the other way round.

    A worker keeps its own lock while it runs a task and while it asks for the pool lock
    to announce itself; whoever holds the pool lock only tries the workers' locks.  A
    waiting execute sleeps for a bounded time, so it may go on at any moment, and the
    announcement changes nothing but how soon. */
module TryLockPool {
  import opened Prelude

  type Task = nat

  // ---- Task managers ----

  /** Ready wants the manager's lock; Running and Notifying hold it.  A Leaving worker has
      ended its loop, but its thread still counts as alive. */
  datatype WorkerPc = Ready | Asleep(signalled: bool) | Running | Notifying | Leaving | Exited

  datatype Manager = Manager(pc: WorkerPc, task: Option<Task>, go: bool)

  const STARTED := Manager(Ready, None, true)

  predicate HoldsLock(m: Manager) { m.pc.Running? || m.pc.Notifying? }

  function Notified(m: Manager): Manager
  {
    if m.pc.Asleep? then m.(pc := Asleep(true)) else m
  }

  /** is_idle, read without the manager's lock. */
  predicate IsIdle(m: Manager) { m.task.None? && !m.pc.Exited? }

  /** Whether set_task finds the slot empty and gets the lock at its one try. */
  predicate Takes(m: Manager) { m.task.None? && !HoldsLock(m) }

  function SetTask(m: Manager, t: Task): Manager
  {
    if Takes(m) then Notified(m.(task := Some(t))) else m
  }

  /** stop: a plain write, without lock and without notification. */
  function Stop(m: Manager): Manager { m.(go := false) }

  /** The locked section of ~TaskManager. */
  function Retire(m: Manager): Manager { Notified(m.(go := false)) }

  /** The head of the worker loop, evaluated with the manager's lock held. */
  function LoopHead(m: Manager): Manager
  {
    if m.go && m.task.Some? then m.(pc := Running)
    else if m.go then m.(pc := Asleep(false))
    else Manager(Leaving, None, false)
  }

  function WorkerNext(m: Manager): Manager
  {
    match m.pc
    case Asleep(_) => m.(pc := Ready)
    case Running => Manager(Notifying, None, m.go)
    case Leaving => m.(pc := Exited)
    case Exited => m
    case Ready => LoopHead(m)
    case Notifying => LoopHead(m)
  }

  /** The task that a worker deletes in its next step. */
  function Deletes(m: Manager): Option<Task>
  {
    if m.pc.Running? || (m.pc.Ready? && !m.go) then m.task else None
  }

  function Slots(ms: seq<Manager>): (slots: seq<Option<Task>>)
  {
    seq(|ms|, i requires 0 <= i < |ms| => ms[i].task)
  }

  // ---- Calls into the pool ----

  datatype Client =
    | Out
    | Exec(t: Task)                        // execute: wants the pool lock
    | Scan(t: Task, i: nat, idle: bool)    // holds it, at manager i, `idle` if that has said so
    | Waiting(t: Task)                     // in wait_for, without the pool lock
    | Ask                                  // is_idle: wants the pool lock
    | AskScan(i: nat)                      // holds it, at manager i
    | Answered(idle: bool)
    | Term                                 // terminate: wants the pool lock
    | TermStop(i: nat)                     // holds it, about to stop manager i
    | Delete(i: nat)                       // destructor: wants the lock of manager i
    | Join(i: nat)                         // joining the worker of manager i
    | Destroyed

  predicate HoldsPool(k: Client) { k.Scan? || k.AskScan? || k.TermStop? }

  function PendingTask(k: Client): Option<Task>
  {
    if k.Exec? || k.Scan? || k.Waiting? then Some(k.t) else None
  }

  function Pending(cs: seq<Client>): (slots: seq<Option<Task>>)
  {
    seq(|cs|, i requires 0 <= i < |cs| => PendingTask(cs[i]))
  }

  // ---- The pool ----

  /** What has happened to the tasks; `placed` are those whose execute has returned. */
  datatype History = History(submitted: set<Task>, placed: seq<Task>, finished: seq<Task>, discarded: seq<Task>)

  /** `terminated` and `destroying`: terminate, or the destructor, has been called. */
  datatype State = State(
    ms: seq<Manager>, pl: Option<nat>, clients: seq<Client>, terminated: bool, destroying: bool, h: History)

  datatype Call = Execute(t: Task) | IsPoolIdle | Terminate | Destroy

  datatype Action =
    | Enter(c: nat, call: Call)
    | Return(c: nat)
    | ClientAct(c: nat)
    | WorkerAct(i: nat)
    | SpuriousWorker(i: nat)

  function Init(size: nat, clients: nat): State
  {
    State(seq(size, i => STARTED), None, seq(clients, i => Out), false, false, History({}, [], [], []))
  }

  function LogDelete(h: History, m: Manager): History
  {
    if Deletes(m).None? then h
    else if m.pc.Running? then h.(finished := h.finished + [m.task.value])
    else h.(discarded := h.discarded + [m.task.value])
  }

  /** Only the announcement of a finished task, and a sleep, can hold a worker up. */
  predicate WorkerEnabled(s: State, i: nat)
  {
    i < |s.ms| && s.ms[i].pc != Asleep(false) && !s.ms[i].pc.Exited? && (s.ms[i].pc.Notifying? ==> s.pl.None?)
  }

  function SetManager(s: State, i: nat, m: Manager): State
    requires i < |s.ms|
  {
    s.(ms := s.ms[i := m])
  }

  /** Client `c` goes to position `k`, taking or giving back the pool lock on the way. */
  function Move(s: State, c: nat, k: Client): State
    requires c < |s.clients|
  {
    s.(clients := s.clients[c := k],
       pl := if HoldsPool(k) then Some(c) else if HoldsPool(s.clients[c]) then None else s.pl)
  }

  predicate EnterEnabled(s: State, c: nat, call: Call)
  {
    && c < |s.clients| && s.clients[c].Out? && !s.destroying
    && (call.Execute? ==> call.t !in s.h.submitted)
    && (call.Destroy? ==> forall d :: 0 <= d < |s.clients| ==> s.clients[d].Out?)
  }

  function EnterStep(s: State, c: nat, call: Call): State
    requires EnterEnabled(s, c, call)
  {
    match call
    case Execute(t) => Move(s, c, Exec(t)).(h := s.h.(submitted := s.h.submitted + {t}))
    case IsPoolIdle => Move(s, c, Ask)
    case Terminate => Move(s, c, Term).(terminated := true)
    case Destroy => Move(s, c, Delete(0)).(destroying := true)
  }

  predicate ClientEnabled(s: State, c: nat)
  {
    c < |s.clients| &&
    match s.clients[c]
    case Out => false
    case Answered(_) => false
    case Destroyed => false
    case Exec(_) => s.pl.None?
    case Ask => s.pl.None?
    case Term => s.pl.None?
    case Delete(i) => i < |s.ms| ==> !HoldsLock(s.ms[i])
    case Join(i) => i < |s.ms| ==> s.ms[i].pc.Exited?
    case Scan(_, _, _) => true
    case Waiting(_) => true
    case AskScan(_) => true
    case TermStop(_) => true
  }

  /** A scan at a manager that has said it is idle, and whose slot and lock are free. */
  predicate Places(s: State, k: Client)
  {
    k.Scan? && k.idle && k.i < |s.ms| && Takes(s.ms[k.i])
  }

  function Effect(s: State, k: Client): State
  {
    match k
    case Scan(t, i, idle) =>
      if Places(s, k) then SetManager(s, i, SetTask(s.ms[i], t)).(h := s.h.(placed := s.h.placed + [t])) else s
    case TermStop(i) => if i < |s.ms| then SetManager(s, i, Stop(s.ms[i])) else s
    case Delete(i) => if i < |s.ms| then SetManager(s, i, Retire(s.ms[i])) else s
    case _ => s
  }

  function Next(s: State, k: Client): Client
  {
    match k
    case Exec(t) => Scan(t, 0, false)
    case Waiting(t) => Exec(t)
    case Scan(t, i, idle) =>
      if i >= |s.ms| then Waiting(t)
      else if Places(s, k) then Out
      else if !idle && IsIdle(s.ms[i]) then Scan(t, i, true)
      else Scan(t, i + 1, false)
    case Ask => AskScan(0)
    case AskScan(i) =>
      if i >= |s.ms| then Answered(true)
      else if IsIdle(s.ms[i]) then AskScan(i + 1)
      else Answered(false)
    case Term => TermStop(0)
    case TermStop(i) => if i < |s.ms| then TermStop(i + 1) else Out
    case Delete(i) => if i < |s.ms| then Join(i) else Destroyed
    case Join(i) => Delete(i + 1)
    case _ => Out
  }

  function ClientStep(s: State, c: nat): State
    requires ClientEnabled(s, c)
  {
    Move(Effect(s, s.clients[c]), c, Next(s, s.clients[c]))
  }

  function WorkerStep(s: State, i: nat): State
    requires WorkerEnabled(s, i)
  {
    SetManager(s, i, WorkerNext(s.ms[i])).(h := LogDelete(s.h, s.ms[i]))
  }

  predicate Enabled(s: State, a: Action)
  {
    match a
    case Enter(c, call) => EnterEnabled(s, c, call)
    case Return(c) => c < |s.clients| && s.clients[c].Answered?
    case ClientAct(c) => ClientEnabled(s, c)
    case WorkerAct(i) => WorkerEnabled(s, i)
    case SpuriousWorker(i) => i < |s.ms| && s.ms[i].pc.Asleep?
  }

  function Step(s: State, a: Action): State
  {
    if !Enabled(s, a) then s else
    match a
    case Enter(c, call) => EnterStep(s, c, call)
    case Return(c) => Move(s, c, Out)
    case ClientAct(c) => ClientStep(s, c)
    case WorkerAct(i) => WorkerStep(s, i)
    case SpuriousWorker(i) => SetManager(s, i, s.ms[i].(pc := Ready))
  }

  predicate IsRun(size: nat, clients: nat, acts: seq<Action>) { CanRun(Enabled, Step, Init(size, clients), acts) }

  function After(size: nat, clients: nat, acts: seq<Action>): State { Run(Step, Init(size, clients), acts) }

  // ---- The control invariant ----

  ghost predicate LocksOk(s: State)
  {
    && (s.pl.Some? ==> s.pl.value < |s.clients| && HoldsPool(s.clients[s.pl.value]))
    && (forall c :: 0 <= c < |s.clients| && HoldsPool(s.clients[c]) ==> s.pl == Some(c))
  }

  ghost predicate ManagerOk(m: Manager)
  {
    match m.pc
    case Running => m.task.Some?
    case Notifying => m.task.None?
    case Asleep(signalled) => signalled || m.task.None?
    case Leaving => !m.go
    case Exited => !m.go
    case Ready => true
  }

  /** The slots that a scan has passed stay as it saw them: only it could fill them. */
  ghost predicate ClientOk(ms: seq<Manager>, k: Client)
  {
    match k
    case Scan(_, i, idle) => i <= |ms| && (idle ==> i < |ms| && ms[i].task.None?)
    case AskScan(i) => i <= |ms| && forall j :: 0 <= j < i ==> ms[j].task.None?
    case TermStop(i) => i <= |ms| && forall j :: 0 <= j < i ==> !ms[j].go
    case Delete(i) => i <= |ms| && forall j :: 0 <= j < i ==> ms[j].pc.Exited?
    case Join(i) => i < |ms| && (forall j :: 0 <= j < i ==> ms[j].pc.Exited?) && !ms[i].go && ms[i].pc != Asleep(false)
    case Destroyed => forall j :: 0 <= j < |ms| ==> ms[j].pc.Exited?
    case _ => true
  }

  predicate Destroys(k: Client) { k.Delete? || k.Join? || k.Destroyed? }

  ghost predicate Control(s: State)
  {
    && LocksOk(s)
    && (forall i :: 0 <= i < |s.ms| ==> ManagerOk(s.ms[i]))
    && (forall c :: 0 <= c < |s.clients| ==> ClientOk(s.ms, s.clients[c]))
    && (forall c :: 0 <= c < |s.clients| ==>
          if s.destroying then s.clients[c].Out? || Destroys(s.clients[c]) else !Destroys(s.clients[c]))
  }

  /** What a worker, or a destructor, may do to a manager under the eyes of a client. */
  ghost predicate Harmless(m: Manager, m': Manager)
  {
    && (m.task.None? ==> m'.task.None?) && (m.pc.Exited? ==> m'.pc.Exited?)
    && (!m.go ==> !m'.go) && (!m.go && m.pc != Asleep(false) ==> m'.pc != Asleep(false))
  }

  lemma StillOk(ms: seq<Manager>, i: nat, m: Manager, k: Client)
    requires i < |ms| && Harmless(ms[i], m) && ClientOk(ms, k)
    ensures ClientOk(ms[i := m], k)
  {
  }

  lemma WorkerControl(s: State, i: nat)
    requires Control(s) && WorkerEnabled(s, i)
    ensures Control(WorkerStep(s, i))
  {
    assert ManagerOk(s.ms[i]);
    var s' := WorkerStep(s, i);
    forall c | 0 <= c < |s.clients| ensures ClientOk(s'.ms, s.clients[c]) {
      StillOk(s.ms, i, s'.ms[i], s.clients[c]);
    }
  }

  /** The effect of a client on the managers, as another client sees it. */
  lemma EffectOk(s: State, k: Client, other: Client)
    requires ClientOk(s.ms, k) && ClientOk(s.ms, other)
    requires HoldsPool(k) ==> !HoldsPool(other)
    requires Destroys(other) ==> !HoldsPool(k)
    ensures ClientOk(Effect(s, k).ms, other)
  {
  }

  lemma OwnOk(s: State, k: Client)
    requires ClientOk(s.ms, k)
    requires k.Join? && k.i < |s.ms| ==> s.ms[k.i].pc.Exited?
    ensures ClientOk(Effect(s, k).ms, Next(s, k))
  {
  }

  lemma EffectManagersOk(s: State, k: Client)
    requires forall i :: 0 <= i < |s.ms| ==> ManagerOk(s.ms[i])
    ensures forall i :: 0 <= i < |s.ms| ==> ManagerOk(Effect(s, k).ms[i])
    ensures |Effect(s, k).ms| == |s.ms|
  {
  }

  lemma MoveLocks(s: State, c: nat, k: Client)
    requires LocksOk(s) && c < |s.clients| && (HoldsPool(k) ==> s.pl.None? || s.pl == Some(c))
    ensures LocksOk(Move(s, c, k))
  {
  }

  lemma ClientControl(s: State, c: nat)
    requires Control(s) && ClientEnabled(s, c)
    ensures Control(ClientStep(s, c))
  {
    hide ClientOk, ManagerOk, Effect, LocksOk;
    var k := s.clients[c];
    var s' := ClientStep(s, c);
    assert Effect(s, k).(ms := s.ms, h := s.h) == s by {
      EffectFrame(s, k);
    }
    assert LocksOk(s') by {
      LocksAfter(s, Effect(s, k), c);
    }
    OwnOk(s, k);
    EffectManagersOk(s, k);
    forall d | 0 <= d < |s.clients| && d != c ensures ClientOk(s'.ms, s'.clients[d]) {
      OneHolder(s, c, d);
      EffectOk(s, k, s.clients[d]);
    }
    forall d | 0 <= d < |s.clients|
      ensures if s.destroying then s'.clients[d].Out? || Destroys(s'.clients[d]) else !Destroys(s'.clients[d])
    {
      assert s.destroying ==> s.clients[c].Out? || Destroys(s.clients[c]);
    }
  }

  lemma EffectFrame(s: State, k: Client)
    ensures Effect(s, k).(ms := s.ms, h := s.h) == s
  {
  }

  lemma OneHolder(s: State, c: nat, d: nat)
    requires LocksOk(s) && c < |s.clients| && d < |s.clients| && c != d
    ensures HoldsPool(s.clients[c]) ==> !HoldsPool(s.clients[d])
  {
  }

  lemma LocksAfter(s: State, e: State, c: nat)
    requires LocksOk(s) && ClientEnabled(s, c) && e.(ms := s.ms, h := s.h) == s
    ensures LocksOk(Move(e, c, Next(s, s.clients[c])))
  {
    MoveLocks(e, c, Next(s, s.clients[c]));
  }

  lemma EnterControl(s: State, c: nat, call: Call)
    requires Control(s) && EnterEnabled(s, c, call)
    ensures Control(EnterStep(s, c, call))
  {
    MoveLocks(s, c, EnterStep(s, c, call).clients[c]);
  }

  lemma StepControl(s: State, a: Action)
    requires Control(s) && Enabled(s, a)
    ensures Control(Step(s, a))
  {
    hide Control;
    match a
    case Enter(c, call) => EnterControl(s, c, call);
    case Return(c) => ReturnControl(s, c);
    case ClientAct(c) => ClientControl(s, c);
    case WorkerAct(i) => WorkerControl(s, i);
    case SpuriousWorker(i) => WakeControl(s, i);
  }

  lemma ReturnControl(s: State, c: nat)
    requires Control(s) && c < |s.clients| && s.clients[c].Answered?
    ensures Control(Move(s, c, Out))
  {
    MoveLocks(s, c, Out);
  }

  lemma WakeControl(s: State, i: nat)
    requires Control(s) && i < |s.ms| && s.ms[i].pc.Asleep?
    ensures Control(SetManager(s, i, s.ms[i].(pc := Ready)))
  {
    forall c | 0 <= c < |s.clients| ensures ClientOk(s.ms[i := s.ms[i].(pc := Ready)], s.clients[c]) {
      StillOk(s.ms, i, s.ms[i].(pc := Ready), s.clients[c]);
    }
  }

  lemma InitControl(size: nat, clients: nat)
    ensures Control(Init(size, clients))
  {
  }

  lemma RunControl(size: nat, clients: nat, acts: seq<Action>)
    requires IsRun(size, clients, acts)
    ensures Control(After(size, clients, acts))
  {
    hide Control, Step, Enabled;
    InitControl(size, clients);
    forall s, a | Control(s) && Enabled(s, a) ensures Control(Step(s, a)) {
      StepControl(s, a);
    }
    RunKeeps(Enabled, Step, Control, Init(size, clients), acts);
  }
}
