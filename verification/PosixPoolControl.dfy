/** Where the threads of the queued pool can be: lock ownership, the peeked task,
    wake-up safety and the phases of shutdown, kept by every step. */
module PosixPoolControl {
  import opened Prelude
  import opened PosixPool

  /** The owner of a lock is the thread whose position says that it holds it. */
  ghost predicate LocksOk(s: State)
  {
    && (s.ql == Some(Dispatching) <==> s.disp.DScan?)
    && s.pl != Some(Dispatching)
    && (s.ql.Some? && s.ql.value.Calling? ==> s.ql.value.c < |s.clients|)
    && (s.pl.Some? && s.pl.value.Calling? ==> s.pl.value.c < |s.clients|)
    && (forall c {:trigger s.clients[c]} :: 0 <= c < |s.clients| ==>
          && (HoldsQueue(s.clients[c]) <==> s.ql == Some(Calling(c)))
          && (HoldsPool(s.clients[c]) <==> s.pl == Some(Calling(c))))
  }

  ghost predicate AtFront(s: State, t: Task) { s.queue != [] && s.queue[0] == t }

  /** A peeked task is still the front of the queue, and an unsignalled sleep of the
      dispatcher is one that a new task or a shutdown would end. */
  ghost predicate DispatcherOk(s: State)
  {
    match s.disp
    case DReady(peek) => peek.Some? ==> AtFront(s, peek.value)
    case DAsleep(peek, signalled) =>
      && (peek.Some? ==> AtFront(s, peek.value))
      && (!signalled ==> s.go && (peek.None? ==> s.queue == []))
    case DScan(t, i, idle) =>
      && AtFront(s, t) && s.go && i <= |s.ms|
      && (idle ==> i < |s.ms| && s.ms[i].task.None?)
    case DExited => !s.go
  }

  ghost predicate ManagerOk(m: Manager)
  {
    match m.pc
    case Ready => true
    case Asleep(signalled) => signalled || m.task.None?
    case Running => m.task.Some? && m.go
    case Notifying => m.task.None? && m.go
    case Exited => m.task.None? && !m.go
  }

  /** How far the one thread that shuts the managers down has come. */
  datatype Phase = Live | Stopping(k: nat) | Deleting(k: nat) | Joining(k: nat) | Gone

  ghost function PhaseOf(s: State): Phase
  {
    if !s.listed then Gone
    else if s.pl.Some? && s.pl.value.Calling? && s.pl.value.c < |s.clients| then
      match s.clients[s.pl.value.c]
      case TermStop(_, k) => Stopping(k)
      case TermDelete(_, k) => Deleting(k)
      case TermJoin(_, k) => Joining(k)
      case _ => Live
    else Live
  }

  ghost predicate PhaseOk(p: Phase, ms: seq<Manager>)
  {
    match p
    case Live => forall i :: 0 <= i < |ms| ==> ms[i].go
    case Stopping(k) => k <= |ms| && forall i :: 0 <= i < |ms| ==> (ms[i].go <==> k <= i)
    case Deleting(k) => k <= |ms| && forall i :: 0 <= i < |ms| ==> !ms[i].go && (i < k ==> ms[i].pc.Exited?)
    case Joining(k) =>
      && k < |ms| && ms[k].pc != Asleep(false)
      && forall i :: 0 <= i < |ms| ==> !ms[i].go && (i < k ==> ms[i].pc.Exited?)
    case Gone => forall i :: 0 <= i < |ms| ==> ms[i].pc.Exited?
  }

  ghost predicate IsDestroyer(k: Client)
  {
    match k
    case TermQueue(d) => d
    case TermPool(d) => d
    case TermStop(d, _) => d
    case TermDelete(d, _) => d
    case TermJoin(d, _) => d
    case JoinDispatcher => true
    case Drain => true
    case FinalPool(_) => true
    case Destroyed => true
    case _ => false
  }

  /** What a client's position says about the pool.  The scan of is_idle has seen
      an empty queue and empty slots, and both are still empty. */
  ghost predicate ClientOk(s: State, k: Client)
  {
    match k
    case QueryPool => s.queue == [] && !s.joined
    case QueryScan(i) =>
      && s.queue == [] && s.listed && !s.joined && 0 < |s.ms| && i <= |s.ms|
      && (forall j :: 0 <= j < i ==> s.ms[j].task.None?)
    case TermPool(_) => !s.go
    case TermStop(_, _) => !s.go && s.listed
    case TermDelete(_, _) => !s.go && s.listed
    case TermJoin(_, _) => !s.go && s.listed
    case JoinDispatcher => !s.go && !s.listed
    case Drain => !s.go && !s.listed && s.joined
    case FinalPool(_) => !s.go && !s.listed && s.joined && s.queue == []
    case Destroyed => !s.go && !s.listed && s.joined && s.queue == []
    case _ => true
  }

  ghost predicate ClientsOk(s: State)
  {
    forall c :: 0 <= c < |s.clients| ==> ClientOk(s, s.clients[c])
  }

  ghost predicate Alone(s: State, d: nat)
  {
    && d < |s.clients| && IsDestroyer(s.clients[d])
    && (forall c :: 0 <= c < |s.clients| && c != d ==> s.clients[c].Idle?)
  }

  ghost predicate DestroyOk(s: State)
  {
    && (s.destroying ==> exists d :: Alone(s, d))
    && (!s.destroying ==> forall c :: 0 <= c < |s.clients| ==> !IsDestroyer(s.clients[c]))
    && (!s.listed ==> !s.go)
    && (s.joined ==> s.disp.DExited? && s.destroying)
  }

  ghost predicate ManagersOk(ms: seq<Manager>)
  {
    forall i :: 0 <= i < |ms| ==> ManagerOk(ms[i])
  }

  ghost predicate Control(s: State)
  {
    && LocksOk(s) && DispatcherOk(s) && ManagersOk(s.ms) && PhaseOk(PhaseOf(s), s.ms)
    && ClientsOk(s) && DestroyOk(s)
  }

  lemma InitControl(size: nat, clients: nat)
    ensures Control(Init(size, clients))
  {
  }

  // ---- Steps that leave the clients alone ----

  ghost predicate SameCalls(s: State, s': State)
  {
    && s'.clients == s.clients && s'.destroying == s.destroying && s'.pl == s.pl
    && s'.listed == s.listed && s'.joined == s.joined && s'.go == s.go && |s'.ms| == |s.ms|
  }

  lemma DestroyKept(s: State, s': State)
    requires DestroyOk(s) && SameCalls(s, s') && (s.disp.DExited? ==> s'.disp.DExited?)
    ensures DestroyOk(s')
  {
    forall d | Alone(s, d) ensures Alone(s', d) {}
  }

  /** Emptying slots disturbs no client, and nobody scans while the dispatcher does. */
  lemma ClientsKept(s: State, s': State)
    requires ClientsOk(s) && SameCalls(s, s')
    requires s'.queue == s.queue || (s.go && forall c :: 0 <= c < |s.clients| ==> !HoldsQueue(s.clients[c]))
    requires forall j :: 0 <= j < |s.ms| && s.ms[j].task.None? ==>
      s'.ms[j].task.None? || forall c :: 0 <= c < |s.clients| ==> !HoldsQueue(s.clients[c])
    ensures ClientsOk(s')
  {
    forall c | 0 <= c < |s.clients| ensures ClientOk(s', s.clients[c]) {
      assert ClientOk(s, s.clients[c]);
    }
  }

  lemma LocksKept(s: State, s': State)
    requires LocksOk(s) && SameCalls(s, s')
    requires s'.ql == s.ql || (s.ql.None? && s'.ql == Some(Dispatching)) || (s.ql == Some(Dispatching) && s'.ql.None?)
    requires s'.ql == Some(Dispatching) <==> s'.disp.DScan?
    ensures LocksOk(s')
  {
  }

  lemma PhaseKept(s: State, s': State)
    requires SameCalls(s, s')
    ensures PhaseOf(s') == PhaseOf(s)
  {
  }

  // ---- Workers ----

  /** A worker's step fills no slot, reopens no manager, and sleeps only when open. */
  ghost predicate Advances(m: Manager, m': Manager)
  {
    && m'.go == m.go && ManagerOk(m') && !m.pc.Exited?
    && (m.task.None? ==> m'.task.None?)
    && (m'.pc == Asleep(false) ==> m'.go)
  }

  lemma AdvanceKeepsPhase(p: Phase, ms: seq<Manager>, i: nat, m': Manager)
    requires PhaseOk(p, ms) && ManagersOk(ms) && i < |ms| && Advances(ms[i], m')
    ensures PhaseOk(p, ms[i := m']) && ManagersOk(ms[i := m'])
  {
  }

  lemma AdvanceControl(s: State, s': State, i: nat)
    requires Control(s) && SameCalls(s, s') && i < |s.ms|
    requires s'.queue == s.queue && s'.ql == s.ql && (s'.disp == s.disp || s'.disp == Signal(s.disp))
    requires s'.ms == s.ms[i := s'.ms[i]] && Advances(s.ms[i], s'.ms[i])
    ensures Control(s')
  {
    AdvanceKeepsPhase(PhaseOf(s), s.ms, i, s'.ms[i]);
    PhaseKept(s, s');
    LocksKept(s, s');
    ClientsKept(s, s');
    DestroyKept(s, s');
  }

  lemma WorkerControl(s: State, i: nat)
    requires Control(s) && i < |s.ms| && WorkerEnabled(s.ms[i])
    ensures Control(WorkerStep(s, i))
  {
    var s' := WorkerStep(s, i);
    assert ManagerOk(s.ms[i]);
    assert s'.ms == s.ms[i := s'.ms[i]];
    AdvanceControl(s, s', i);
  }

  lemma SpuriousControl(s: State, i: nat)
    requires Control(s) && i < |s.ms| && s.ms[i].pc.Asleep?
    ensures Control(SetManager(s, i, s.ms[i].(pc := Ready)))
  {
    AdvanceControl(s, SetManager(s, i, s.ms[i].(pc := Ready)), i);
  }

  // ---- The dispatcher ----

  lemma DispatcherWakes(s: State)
    requires Control(s) && s.disp.DAsleep?
    ensures Control(s.(disp := DReady(s.disp.peek)))
  {
    var s' := s.(disp := DReady(s.disp.peek));
    PhaseKept(s, s');
    LocksKept(s, s');
    ClientsKept(s, s');
    DestroyKept(s, s');
  }

  lemma ResumeControl(s: State, s0: State, peek: Option<Task>)
    requires Control(s) && SameCalls(s, s0) && !s.disp.DExited?
    requires s.disp.DScan? || (s.ql.None? && s0.queue == s.queue)
    requires s0.ql == s.ql && (s0.go && peek.Some? ==> AtFront(s0, peek.value))
    requires ManagersOk(s0.ms) && PhaseOk(PhaseOf(s), s0.ms)
    requires s.disp.DScan? || s0.ms == s.ms
    ensures Control(Resume(s0, peek))
  {
    var s' := Resume(s0, peek);
    PhaseKept(s, s');
    LocksKept(s, s');
    ClientsKept(s, s');
    DestroyKept(s, s');
  }

  lemma FillKeepsPhase(p: Phase, ms: seq<Manager>, i: nat, t: Task)
    requires PhaseOk(p, ms) && ManagersOk(ms) && i < |ms| && p.Live? && ms[i].task.None? && !HoldsLock(ms[i])
    ensures PhaseOk(p, ms[i := SetTask(ms[i], t)]) && ManagersOk(ms[i := SetTask(ms[i], t)])
  {
  }

  /** The dispatcher scans only while no shutdown has begun. */
  lemma ScanIsLive(s: State)
    requires Control(s) && s.disp.DScan?
    ensures PhaseOf(s) == Live && s.listed
  {
    if s.pl.Some? {
      var c := s.pl.value.c;
      assert HoldsPool(s.clients[c]) && HoldsQueue(s.clients[c]);
    }
  }

  lemma DispatcherControl(s: State)
    requires Control(s) && DispatcherEnabled(s)
    ensures Control(DispatcherStep(s))
  {
    match s.disp
    case DReady(peek) => ResumeControl(s, s, peek);
    case DAsleep(_, _) => DispatcherWakes(s);
    case DScan(t, i, idle) =>
      ScanIsLive(s);
      if i < |s.ms| && s.ms[i].task.None? && idle {
        FillKeepsPhase(PhaseOf(s), s.ms, i, t);
        ResumeControl(s, Assigned(s, t, i), None);
      } else {
        var s' := DispatcherStep(s);
        PhaseKept(s, s');
        LocksKept(s, s');
        ClientsKept(s, s');
        DestroyKept(s, s');
      }
  }

  // ---- Clients ----

  /** The lock bookkeeping of one client that moves from its position to `k`. */
  ghost predicate MovesTo(s: State, s': State, c: nat, k: Client)
  {
    && c < |s.clients| && s'.clients == s.clients[c := k] && s'.destroying == s.destroying
    && (IsDestroyer(k) <==> IsDestroyer(s.clients[c])) && !s.clients[c].Idle?
    && (HoldsQueue(k) && !HoldsQueue(s.clients[c]) ==> s.ql.None?)
    && (HoldsPool(k) && !HoldsPool(s.clients[c]) ==> s.pl.None?)
    && s'.ql == (if HoldsQueue(k) then Some(Calling(c)) else if HoldsQueue(s.clients[c]) then None else s.ql)
    && s'.pl == (if HoldsPool(k) then Some(Calling(c)) else if HoldsPool(s.clients[c]) then None else s.pl)
    && (s'.disp == s.disp || s'.disp == Signal(s.disp))
  }

  lemma MoveLocks(s: State, s': State, c: nat, k: Client)
    requires LocksOk(s) && MovesTo(s, s', c, k)
    ensures LocksOk(s')
  {
  }

  lemma MoveDestroy(s: State, s': State, c: nat, k: Client)
    requires DestroyOk(s) && MovesTo(s, s', c, k) && (!s'.listed ==> !s'.go)
    requires s'.joined == s.joined || (s.destroying && s.disp.DExited?)
    ensures DestroyOk(s')
  {
    forall d | Alone(s, d) ensures Alone(s', d) {}
  }

  lemma MoveClients(s: State, s': State, c: nat, k: Client)
    requires LocksOk(s) && DestroyOk(s) && ClientsOk(s) && MovesTo(s, s', c, k) && ClientOk(s', k)
    requires |s'.ms| == |s.ms| && forall j :: 0 <= j < |s.ms| && s.ms[j].task.None? ==> s'.ms[j].task.None?
    requires (s'.go ==> s.go) && (s'.listed ==> s.listed)
    requires s'.queue == s.queue || s'.queue == [] || (s.go && s.ql.None?)
    requires s'.listed == s.listed || HoldsQueue(s.clients[c])
    requires s'.joined == s.joined || (s.destroying && s'.joined)
    ensures ClientsOk(s')
  {
    forall d | 0 <= d < |s.clients| ensures ClientOk(s', s'.clients[d]) {
      assert ClientOk(s, s.clients[d]);
    }
  }

  lemma {:induction false} DestroyerActs(s: State, c: nat)
    requires DestroyOk(s) && c < |s.clients| && IsDestroyer(s.clients[c])
    ensures s.destroying && Alone(s, c)
  {
    if s.destroying {
      var d :| Alone(s, d);
    }
  }

  lemma ExecControl(s: State, c: nat)
    requires Control(s) && ClientEnabled(s, c) && s.clients[c].Exec?
    ensures Control(ClientStep(s, c))
  {
    var s' := ClientStep(s, c);
    assert PhaseOf(s') == PhaseOf(s);
    MoveLocks(s, s', c, Idle);
    MoveDestroy(s, s', c, Idle);
    MoveClients(s, s', c, Idle);
  }

  lemma QueryStartControl(s: State, c: nat)
    requires Control(s) && ClientEnabled(s, c) && (s.clients[c].Query? || s.clients[c].QueryPool?)
    ensures Control(ClientStep(s, c))
  {
    var s' := ClientStep(s, c);
    var k := s'.clients[c];
    assert ClientOk(s, s.clients[c]);
    assert PhaseOf(s') == PhaseOf(s);
    MoveLocks(s, s', c, k);
    MoveDestroy(s, s', c, k);
    MoveClients(s, s', c, k);
  }

  lemma QueryScanControl(s: State, c: nat)
    requires Control(s) && ClientEnabled(s, c) && s.clients[c].QueryScan?
    ensures Control(ClientStep(s, c))
  {
    var s' := ClientStep(s, c);
    var k := s'.clients[c];
    assert ClientOk(s, s.clients[c]);
    assert PhaseOf(s') == PhaseOf(s);
    MoveLocks(s, s', c, k);
    MoveDestroy(s, s', c, k);
    MoveClients(s, s', c, k);
  }

  lemma TermQueueControl(s: State, c: nat)
    requires Control(s) && ClientEnabled(s, c) && s.clients[c].TermQueue?
    ensures Control(ClientStep(s, c))
  {
    var s' := ClientStep(s, c);
    var k := s'.clients[c];
    assert PhaseOf(s') == PhaseOf(s);
    MoveLocks(s, s', c, k);
    MoveDestroy(s, s', c, k);
    MoveClients(s, s', c, k);
  }

  lemma TermPoolControl(s: State, c: nat)
    requires Control(s) && ClientEnabled(s, c) && s.clients[c].TermPool?
    ensures Control(ClientStep(s, c))
  {
    var s' := ClientStep(s, c);
    var k := s'.clients[c];
    assert ClientOk(s, s.clients[c]);
    MoveLocks(s, s', c, k);
    MoveDestroy(s, s', c, k);
    MoveClients(s, s', c, k);
    if s.listed {
      assert PhaseOf(s) == Live && PhaseOf(s') == Stopping(0);
    }
  }

  /** The holder of the pool lock is in the phase that its position names. */
  lemma ShutdownPhase(s: State, c: nat)
    requires LocksOk(s) && ClientsOk(s) && c < |s.clients|
    ensures s.clients[c].TermStop? ==> PhaseOf(s) == Stopping(s.clients[c].i)
    ensures s.clients[c].TermDelete? ==> PhaseOf(s) == Deleting(s.clients[c].i)
    ensures s.clients[c].TermJoin? ==> PhaseOf(s) == Joining(s.clients[c].i)
  {
    assert ClientOk(s, s.clients[c]);
  }

  lemma StopControl(s: State, c: nat)
    requires Control(s) && ClientEnabled(s, c) && s.clients[c].TermStop?
    ensures Control(ClientStep(s, c))
  {
    var s' := ClientStep(s, c);
    var k := s'.clients[c];
    assert ClientOk(s, s.clients[c]);
    ShutdownPhase(s, c);
    MoveLocks(s, s', c, k);
    MoveDestroy(s, s', c, k);
    MoveClients(s, s', c, k);
    assert PhaseOf(s') == if k.TermStop? then Stopping(k.i) else Deleting(0);
  }

  lemma DeleteControl(s: State, c: nat)
    requires Control(s) && ClientEnabled(s, c) && s.clients[c].TermDelete?
    ensures Control(ClientStep(s, c))
  {
    var s' := ClientStep(s, c);
    var k := s'.clients[c];
    assert ClientOk(s, s.clients[c]);
    ShutdownPhase(s, c);
    MoveLocks(s, s', c, k);
    MoveDestroy(s, s', c, k);
    MoveClients(s, s', c, k);
    assert PhaseOf(s') == if k.TermJoin? then Joining(k.i) else Gone;
  }

  lemma JoinControl(s: State, c: nat)
    requires Control(s) && ClientEnabled(s, c) && s.clients[c].TermJoin?
    ensures Control(ClientStep(s, c))
  {
    var s' := ClientStep(s, c);
    var k := s'.clients[c];
    assert ClientOk(s, s.clients[c]);
    ShutdownPhase(s, c);
    MoveLocks(s, s', c, k);
    MoveDestroy(s, s', c, k);
    MoveClients(s, s', c, k);
    assert PhaseOf(s') == Deleting(k.i);
  }

  lemma FinalControl(s: State, c: nat)
    requires Control(s) && ClientEnabled(s, c)
    requires s.clients[c].JoinDispatcher? || s.clients[c].Drain? || s.clients[c].FinalPool?
    ensures Control(ClientStep(s, c))
  {
    var s' := ClientStep(s, c);
    var k := s'.clients[c];
    assert ClientOk(s, s.clients[c]);
    DestroyerActs(s, c);
    assert PhaseOf(s') == PhaseOf(s) == Gone;
    MoveLocks(s, s', c, k);
    MoveDestroy(s, s', c, k);
    MoveClients(s, s', c, k);
  }

  lemma ClientControl(s: State, c: nat)
    requires Control(s) && ClientEnabled(s, c)
    ensures Control(ClientStep(s, c))
  {
    match s.clients[c]
    case Exec(_) => ExecControl(s, c);
    case Query => QueryStartControl(s, c);
    case QueryPool => QueryStartControl(s, c);
    case QueryScan(_) => QueryScanControl(s, c);
    case TermQueue(_) => TermQueueControl(s, c);
    case TermPool(_) => TermPoolControl(s, c);
    case TermStop(_, _) => StopControl(s, c);
    case TermDelete(_, _) => DeleteControl(s, c);
    case TermJoin(_, _) => JoinControl(s, c);
    case _ => FinalControl(s, c);
  }

  lemma EnterControl(s: State, c: nat, call: Call)
    requires Control(s) && EnterEnabled(s, c, call)
    ensures Control(EnterStep(s, c, call))
  {
    hide PhaseOk, ClientOk;
    assert PhaseOf(EnterStep(s, c, call)) == PhaseOf(s);
    EnterDestroy(s, c, call);
    EnterClients(s, c, call);
  }

  lemma EnterDestroy(s: State, c: nat, call: Call)
    requires LocksOk(s) && DestroyOk(s) && EnterEnabled(s, c, call)
    ensures LocksOk(EnterStep(s, c, call)) && DestroyOk(EnterStep(s, c, call))
  {
    if call.Destroy? {
      assert Alone(EnterStep(s, c, call), c);
    }
  }

  lemma EnterClients(s: State, c: nat, call: Call)
    requires ClientsOk(s) && EnterEnabled(s, c, call)
    ensures ClientsOk(EnterStep(s, c, call))
  {
    var s' := EnterStep(s, c, call);
    forall d | 0 <= d < |s.clients| ensures ClientOk(s', s'.clients[d]) {
      assert ClientOk(s, s.clients[d]);
    }
  }

  lemma ReturnControl(s: State, c: nat)
    requires Control(s) && Enabled(s, Return(c))
    ensures Control(Move(s, c, Idle))
  {
    var s' := Move(s, c, Idle);
    assert PhaseOf(s') == PhaseOf(s);
    MoveLocks(s, s', c, Idle);
    MoveDestroy(s, s', c, Idle);
    MoveClients(s, s', c, Idle);
  }

  // ---- Every run ----

  lemma StepControl(s: State, a: Action)
    requires Control(s) && Enabled(s, a)
    ensures Control(Step(s, a))
  {
    match a
    case Enter(c, call) => EnterControl(s, c, call);
    case Return(c) => ReturnControl(s, c);
    case ClientAct(c) => ClientControl(s, c);
    case DispatcherAct => DispatcherControl(s);
    case WorkerAct(i) => WorkerControl(s, i);
    case SpuriousDispatcher => DispatcherWakes(s);
    case SpuriousWorker(i) => SpuriousControl(s, i);
  }

  lemma RunControl(size: nat, clients: nat, acts: seq<Action>)
    requires IsRun(size, clients, acts)
    ensures Control(After(size, clients, acts))
  {
    InitControl(size, clients);
    forall s, a | Control(s) && Enabled(s, a) ensures Control(Step(s, a)) {
      StepControl(s, a);
    }
    RunKeeps(Enabled, Step, Control, Init(size, clients), acts);
  }
}
