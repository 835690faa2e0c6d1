/** The tasks of the queued pool: where each one is, in which order they leave the
    queue, and what is left of them when the pool has been destroyed. */
module PosixPoolSafety {
  import opened Prelude
  import opened PosixPool
  import opened PosixPoolControl

  // ---- The ledger, in four parts that steps change independently ----

  /** Tasks leave the queue in the order in which they entered it. */
  ghost predicate InOrder(h: History, queue: seq<Task>, joined: bool)
  {
    h.accepted == h.dispatched + h.drained + queue && (h.drained != [] ==> joined)
  }

  ghost predicate DispatchedKept(h: History, ms: seq<Manager>)
  {
    multiset(h.dispatched) == Filled(Slots(ms)) + (multiset(h.finished) + multiset(h.discarded))
  }

  ghost predicate SubmittedKept(h: History, cs: seq<Client>)
  {
    multiset(h.submitted) == Filled(Pending(cs)) + (multiset(h.accepted) + multiset(h.rejected))
  }

  function ExitFlags(ms: seq<Manager>): (flags: seq<nat>)
  {
    seq(|ms|, i requires 0 <= i < |ms| => if ms[i].pc.Exited? then 1 else 0)
  }

  function Content(slot: Option<Task>): seq<Task> { if slot.Some? then [slot.value] else [] }

  /** A worker discards at most one task, and a lone worker keeps the order. */
  ghost predicate DiscardsOk(h: History, ms: seq<Manager>)
  {
    && |h.discarded| <= Sum(ExitFlags(ms))
    && (|ms| == 1 ==>
          && h.dispatched == h.finished + Content(ms[0].task) + h.discarded
          && (h.discarded != [] ==> ms[0].pc.Exited?))
  }

  ghost predicate Ledger(s: State)
  {
    && InOrder(s.h, s.queue, s.joined) && DispatchedKept(s.h, s.ms)
    && SubmittedKept(s.h, s.clients) && DiscardsOk(s.h, s.ms)
  }

  ghost predicate Good(s: State) { Control(s) && Ledger(s) }

  lemma InitGood(size: nat, clients: nat)
    ensures Good(Init(size, clients))
  {
    var s := Init(size, clients);
    InitControl(size, clients);
    FilledNone(Slots(s.ms));
    FilledNone(Pending(s.clients));
  }

  // ---- What one changed manager or client does to the ledger ----

  lemma DispatchedMoves(h: History, h': History, ms: seq<Manager>, i: nat, m: Manager,
                        entered: multiset<Task>, left: multiset<Task>)
    requires DispatchedKept(h, ms) && i < |ms|
    requires multiset(h'.dispatched) == multiset(h.dispatched) + entered
    requires multiset(h'.finished) + multiset(h'.discarded) == (multiset(h.finished) + multiset(h.discarded)) + left
    requires Bag(m.task) + left == Bag(ms[i].task) + entered
    ensures DispatchedKept(h', ms[i := m])
  {
    assert Slots(ms[i := m]) == Slots(ms)[i := m.task];
    FilledUpdate(Slots(ms), i, m.task);
    Balance(multiset(h.dispatched), multiset(h'.dispatched), Filled(Slots(ms)), Filled(Slots(ms[i := m])),
            multiset(h.finished) + multiset(h.discarded), multiset(h'.finished) + multiset(h'.discarded),
            Bag(ms[i].task), Bag(m.task), left, entered);
  }

  function PendingTask(k: Client): Option<Task> { if k.Exec? then Some(k.t) else None }

  lemma PendingUpdate(cs: seq<Client>, c: nat, k: Client)
    requires c < |cs|
    ensures Pending(cs[c := k]) == Pending(cs)[c := PendingTask(k)] && Pending(cs)[c] == PendingTask(cs[c])
  {
  }

  lemma SubmittedMoves(h: History, h': History, cs: seq<Client>, c: nat, k: Client,
                       entered: multiset<Task>, left: multiset<Task>)
    requires SubmittedKept(h, cs) && c < |cs|
    requires multiset(h'.submitted) == multiset(h.submitted) + entered
    requires multiset(h'.accepted) + multiset(h'.rejected) == (multiset(h.accepted) + multiset(h.rejected)) + left
    requires Bag(PendingTask(k)) + left == Bag(PendingTask(cs[c])) + entered
    ensures SubmittedKept(h', cs[c := k])
  {
    hide PendingTask, Bag;
    PendingUpdate(cs, c, k);
    var x, y := PendingTask(cs[c]), PendingTask(k);
    FilledUpdate(Pending(cs), c, y);
    Balance(multiset(h.submitted), multiset(h'.submitted), Filled(Pending(cs)), Filled(Pending(cs[c := k])),
            multiset(h.accepted) + multiset(h.rejected), multiset(h'.accepted) + multiset(h'.rejected),
            Bag(x), Bag(y), left, entered);
  }

  lemma FlagsUpdate(ms: seq<Manager>, i: nat, m: Manager)
    requires i < |ms| && !ms[i].pc.Exited?
    ensures Sum(ExitFlags(ms[i := m])) == Sum(ExitFlags(ms)) + if m.pc.Exited? then 1 else 0
  {
    var x: nat := if m.pc.Exited? then 1 else 0;
    assert ExitFlags(ms[i := m]) == ExitFlags(ms)[i := x];
    SumUpdate(ExitFlags(ms), i, x);
  }

  // ---- Workers ----

  lemma WorkerDispatched(h: History, ms: seq<Manager>, i: nat)
    requires DispatchedKept(h, ms) && i < |ms| && WorkerEnabled(ms[i]) && ManagerOk(ms[i])
    ensures DispatchedKept(Delete(h, ms[i]), ms[i := WorkerNext(ms[i])])
  {
    DispatchedMoves(h, Delete(h, ms[i]), ms, i, WorkerNext(ms[i]), multiset{}, Bag(Deletes(ms[i])));
  }

  lemma WorkerSubmitted(h: History, m: Manager, queue: seq<Task>, joined: bool, cs: seq<Client>)
    requires InOrder(h, queue, joined) && SubmittedKept(h, cs)
    ensures InOrder(Delete(h, m), queue, joined) && SubmittedKept(Delete(h, m), cs)
  {
  }

  lemma WorkerDiscards(h: History, ms: seq<Manager>, i: nat)
    requires DiscardsOk(h, ms) && i < |ms| && WorkerEnabled(ms[i]) && ManagerOk(ms[i])
    ensures DiscardsOk(Delete(h, ms[i]), ms[i := WorkerNext(ms[i])])
  {
    FlagsUpdate(ms, i, WorkerNext(ms[i]));
  }

  /** A change of a manager that touches neither its task nor its exit. */
  lemma ManagerLedger(h: History, ms: seq<Manager>, i: nat, m: Manager)
    requires DispatchedKept(h, ms) && DiscardsOk(h, ms) && i < |ms|
    requires m.task == ms[i].task && (m.pc.Exited? <==> ms[i].pc.Exited?)
    ensures DispatchedKept(h, ms[i := m]) && DiscardsOk(h, ms[i := m])
  {
    DispatchedMoves(h, h, ms, i, m, multiset{}, multiset{});
    assert ExitFlags(ms[i := m]) == ExitFlags(ms);
  }

  // ---- The dispatcher ----

  lemma AssignedSlots(h: History, ms: seq<Manager>, i: nat, t: Task)
    requires DispatchedKept(h, ms) && DiscardsOk(h, ms) && i < |ms| && ms[i].task.None?
    requires forall j :: 0 <= j < |ms| ==> !ms[j].pc.Exited?
    ensures var h' := h.(dispatched := h.dispatched + [t]);
      DispatchedKept(h', ms[i := SetTask(ms[i], t)]) && DiscardsOk(h', ms[i := SetTask(ms[i], t)])
  {
    var h' := h.(dispatched := h.dispatched + [t]);
    DispatchedMoves(h, h', ms, i, SetTask(ms[i], t), multiset{t}, multiset{});
    FlagsUpdate(ms, i, SetTask(ms[i], t));
  }

  /** No worker has left while the dispatcher scans. */
  lemma ScanBeforeShutdown(s: State)
    requires Control(s) && s.disp.DScan?
    ensures forall i :: 0 <= i < |s.ms| ==> !s.ms[i].pc.Exited?
  {
    ScanIsLive(s);
    forall i | 0 <= i < |s.ms| ensures !s.ms[i].pc.Exited? {
      assert ManagerOk(s.ms[i]) && s.ms[i].go;
    }
  }

  lemma PopInOrder(h: History, queue: seq<Task>)
    requires InOrder(h, queue, false) && queue != []
    ensures InOrder(h.(dispatched := h.dispatched + [queue[0]]), queue[1..], false)
  {
    assert queue == [queue[0]] + queue[1..];
  }

  lemma DispatcherLedger(s: State)
    requires Good(s) && DispatcherEnabled(s)
    ensures Ledger(DispatcherStep(s))
  {
    hide InOrder, DispatchedKept, DiscardsOk;
    if s.disp.DScan? && s.disp.i < |s.ms| && s.ms[s.disp.i].task.None? && s.disp.idle {
      ScanBeforeShutdown(s);
      assert !s.joined && AtFront(s, s.disp.t);
      AssignedSlots(s.h, s.ms, s.disp.i, s.disp.t);
      PopInOrder(s.h, s.queue);
    }
  }

  // ---- Clients ----

  lemma PushInOrder(h: History, queue: seq<Task>, joined: bool, t: Task)
    requires InOrder(h, queue, joined)
    ensures InOrder(h.(accepted := h.accepted + [t]), queue + [t], joined)
  {
  }

  lemma DrainInOrder(h: History, queue: seq<Task>)
    requires InOrder(h, queue, true)
    ensures InOrder(h.(drained := h.drained + queue), [], true)
  {
  }

  lemma EffectInOrder(s: State, k: Client)
    requires InOrder(s.h, s.queue, s.joined) && ClientOk(s, k)
    ensures var s' := Effect(s, k); InOrder(s'.h, s'.queue, s'.joined)
  {
    match k
    case Exec(t) => PushInOrder(s.h, s.queue, s.joined, t);
    case Drain => DrainInOrder(s.h, s.queue);
    case _ =>
  }

  lemma SameDispatched(h: History, h': History, ms: seq<Manager>)
    requires DispatchedKept(h, ms) && DiscardsOk(h, ms)
    requires h'.dispatched == h.dispatched && h'.finished == h.finished && h'.discarded == h.discarded
    ensures DispatchedKept(h', ms) && DiscardsOk(h', ms)
  {
  }

  /** Stopping and retiring a manager moves no task. */
  lemma EffectManagers(s: State, k: Client)
    requires DispatchedKept(s.h, s.ms) && DiscardsOk(s.h, s.ms)
    ensures var s' := Effect(s, k); DispatchedKept(s'.h, s'.ms) && DiscardsOk(s'.h, s'.ms)
  {
    hide DispatchedKept, DiscardsOk;
    if k.TermStop? && k.i < |s.ms| {
      ManagerLedger(s.h, s.ms, k.i, Stop(s.ms[k.i]));
    } else if k.TermDelete? && k.i < |s.ms| {
      ManagerLedger(s.h, s.ms, k.i, Retire(s.ms[k.i]));
    } else {
      SameDispatched(s.h, Effect(s, k).h, s.ms);
    }
  }

  /** A client hands over its pending task, if it has one, and has none afterwards. */
  lemma HandOver(h: History, cs: seq<Client>, c: nat, t: Task)
    requires SubmittedKept(h, cs) && c < |cs| && cs[c] == Exec(t)
    ensures SubmittedKept(h.(accepted := h.accepted + [t]), cs[c := Idle])
    ensures SubmittedKept(h.(rejected := h.rejected + [t]), cs[c := Idle])
  {
    SubmittedMoves(h, h.(accepted := h.accepted + [t]), cs, c, Idle, multiset{}, multiset{t});
    SubmittedMoves(h, h.(rejected := h.rejected + [t]), cs, c, Idle, multiset{}, multiset{t});
  }

  lemma MoveOn(h: History, h': History, cs: seq<Client>, c: nat, k: Client)
    requires SubmittedKept(h, cs) && c < |cs| && !cs[c].Exec? && !k.Exec?
    requires h'.submitted == h.submitted && h'.accepted == h.accepted && h'.rejected == h.rejected
    ensures SubmittedKept(h', cs[c := k])
  {
    SubmittedMoves(h, h', cs, c, k, multiset{}, multiset{});
  }

  lemma EffectSubmitted(s: State, c: nat)
    requires SubmittedKept(s.h, s.clients) && c < |s.clients|
    ensures SubmittedKept(Effect(s, s.clients[c]).h, s.clients[c := Next(s, s.clients[c])])
  {
    hide SubmittedKept;
    var k := s.clients[c];
    if k.Exec? {
      HandOver(s.h, s.clients, c, k.t);
    } else {
      MoveOn(s.h, Effect(s, k).h, s.clients, c, Next(s, k));
    }
  }

  lemma ClientLedger(s: State, c: nat)
    requires Good(s) && ClientEnabled(s, c)
    ensures Ledger(ClientStep(s, c))
  {
    hide InOrder, DispatchedKept, SubmittedKept, DiscardsOk;
    var k := s.clients[c];
    assert ClientOk(s, k);
    EffectInOrder(s, k);
    EffectManagers(s, k);
    EffectSubmitted(s, c);
  }

  lemma Submitting(h: History, cs: seq<Client>, c: nat, t: Task)
    requires SubmittedKept(h, cs) && c < |cs| && !cs[c].Exec? && t !in h.submitted
    ensures SubmittedKept(h.(submitted := h.submitted + {t}), cs[c := Exec(t)])
  {
    assert multiset(h.submitted + {t}) == multiset(h.submitted) + multiset{t};
    SubmittedMoves(h, h.(submitted := h.submitted + {t}), cs, c, Exec(t), multiset{t}, multiset{});
  }

  lemma EnterLedger(s: State, c: nat, call: Call)
    requires Ledger(s) && EnterEnabled(s, c, call)
    ensures Ledger(EnterStep(s, c, call))
  {
    if call.Execute? {
      Submitting(s.h, s.clients, c, call.t);
    } else {
      MoveOn(s.h, s.h, s.clients, c, EnterStep(s, c, call).clients[c]);
    }
  }

  // ---- Every run ----

  lemma StepGood(s: State, a: Action)
    requires Good(s) && Enabled(s, a)
    ensures Good(Step(s, a))
  {
    hide InOrder, DispatchedKept, SubmittedKept, DiscardsOk;
    StepControl(s, a);
    match a
    case Enter(c, call) => EnterLedger(s, c, call);
    case Return(c) => MoveOn(s.h, s.h, s.clients, c, Idle);
    case ClientAct(c) => ClientLedger(s, c);
    case DispatcherAct => DispatcherLedger(s);
    case WorkerAct(i) =>
      assert ManagerOk(s.ms[i]);
      WorkerSubmitted(s.h, s.ms[i], s.queue, s.joined, s.clients);
      WorkerDispatched(s.h, s.ms, i);
      WorkerDiscards(s.h, s.ms, i);
    case SpuriousDispatcher =>
    case SpuriousWorker(i) => ManagerLedger(s.h, s.ms, i, s.ms[i].(pc := Ready));
  }

  lemma RunGood(size: nat, clients: nat, acts: seq<Action>)
    requires IsRun(size, clients, acts)
    ensures Good(After(size, clients, acts))
  {
    InitGood(size, clients);
    forall s, a | Good(s) && Enabled(s, a) ensures Good(Step(s, a)) {
      StepGood(s, a);
    }
    RunKeeps(Enabled, Step, Good, Init(size, clients), acts);
  }
}
