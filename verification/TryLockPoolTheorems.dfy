/** What the try-lock pool guarantees: every task in one place, no circular wait, calls
    that can always return, and exactly when a task can be lost. */
module TryLockPoolTheorems {
  import opened Prelude
  import opened TryLockPool

  // ---- The ledger ----

  ghost predicate SubmittedKept(h: History, cs: seq<Client>)
  {
    multiset(h.submitted) == Filled(Pending(cs)) + multiset(h.placed)
  }

  ghost predicate PlacedKept(h: History, ms: seq<Manager>)
  {
    multiset(h.placed) == Filled(Slots(ms)) + (multiset(h.finished) + multiset(h.discarded))
  }

  ghost predicate Good(s: State) { Control(s) && SubmittedKept(s.h, s.clients) && PlacedKept(s.h, s.ms) }

  lemma SubmittedMoves(h: History, h': History, cs: seq<Client>, c: nat, k: Client,
                       entered: multiset<Task>, left: multiset<Task>)
    requires SubmittedKept(h, cs) && c < |cs|
    requires multiset(h'.submitted) == multiset(h.submitted) + entered
    requires multiset(h'.placed) == multiset(h.placed) + left
    requires Bag(PendingTask(k)) + left == Bag(PendingTask(cs[c])) + entered
    ensures SubmittedKept(h', cs[c := k])
  {
    var x, y := PendingTask(cs[c]), PendingTask(k);
    assert Pending(cs[c := k]) == Pending(cs)[c := y];
    FilledUpdate(Pending(cs), c, y);
    Balance(multiset(h.submitted), multiset(h'.submitted), Filled(Pending(cs)), Filled(Pending(cs[c := k])),
            multiset(h.placed), multiset(h'.placed), Bag(x), Bag(y), left, entered);
  }

  lemma PlacedMoves(h: History, h': History, ms: seq<Manager>, i: nat, m: Manager,
                    entered: multiset<Task>, left: multiset<Task>)
    requires PlacedKept(h, ms) && i < |ms|
    requires multiset(h'.placed) == multiset(h.placed) + entered
    requires multiset(h'.finished) + multiset(h'.discarded) == (multiset(h.finished) + multiset(h.discarded)) + left
    requires Bag(m.task) + left == Bag(ms[i].task) + entered
    ensures PlacedKept(h', ms[i := m])
  {
    assert Slots(ms[i := m]) == Slots(ms)[i := m.task];
    FilledUpdate(Slots(ms), i, m.task);
    Balance(multiset(h.placed), multiset(h'.placed), Filled(Slots(ms)), Filled(Slots(ms[i := m])),
            multiset(h.finished) + multiset(h.discarded), multiset(h'.finished) + multiset(h'.discarded),
            Bag(ms[i].task), Bag(m.task), left, entered);
  }

  lemma Logged(h: History, m: Manager)
    ensures var h' := LogDelete(h, m); (
      && h'.submitted == h.submitted && h'.placed == h.placed
      && multiset(h'.finished) + multiset(h'.discarded)
         == (multiset(h.finished) + multiset(h.discarded)) + Bag(Deletes(m)))
  {
  }

  lemma WorkerSlot(m: Manager)
    requires ManagerOk(m)
    ensures Bag(WorkerNext(m).task) + Bag(Deletes(m)) == Bag(m.task) + multiset{}
  {
  }

  lemma WorkerLedger(h: History, ms: seq<Manager>, i: nat)
    requires PlacedKept(h, ms) && i < |ms| && ManagerOk(ms[i])
    ensures PlacedKept(LogDelete(h, ms[i]), ms[i := WorkerNext(ms[i])])
  {
    hide LogDelete, PlacedKept, ManagerOk, WorkerNext, Deletes, Bag;
    Logged(h, ms[i]);
    WorkerSlot(ms[i]);
    PlacedMoves(h, LogDelete(h, ms[i]), ms, i, WorkerNext(ms[i]), multiset{}, Bag(Deletes(ms[i])));
  }

  lemma WorkerSubmitted(h: History, m: Manager, cs: seq<Client>)
    requires SubmittedKept(h, cs)
    ensures SubmittedKept(LogDelete(h, m), cs)
  {
  }

  lemma PlaceLedger(h: History, ms: seq<Manager>, cs: seq<Client>, c: nat, i: nat, t: Task)
    requires PlacedKept(h, ms) && SubmittedKept(h, cs) && i < |ms| && Takes(ms[i])
    requires c < |cs| && PendingTask(cs[c]) == Some(t)
    ensures var h' := h.(placed := h.placed + [t]);
      PlacedKept(h', ms[i := SetTask(ms[i], t)]) && SubmittedKept(h', cs[c := Out])
  {
    var h' := h.(placed := h.placed + [t]);
    PlacedMoves(h, h', ms, i, SetTask(ms[i], t), multiset{t}, multiset{});
    SubmittedMoves(h, h', cs, c, Out, multiset{}, multiset{t});
  }

  lemma SameTask(h: History, ms: seq<Manager>, i: nat, m: Manager)
    requires PlacedKept(h, ms) && i < |ms| && m.task == ms[i].task
    ensures PlacedKept(h, ms[i := m])
  {
    PlacedMoves(h, h, ms, i, m, multiset{}, multiset{});
  }

  lemma SamePending(h: History, cs: seq<Client>, c: nat, k: Client)
    requires SubmittedKept(h, cs) && c < |cs| && PendingTask(k) == PendingTask(cs[c])
    ensures SubmittedKept(h, cs[c := k])
  {
    SubmittedMoves(h, h, cs, c, k, multiset{}, multiset{});
  }

  lemma ClientLedger(s: State, c: nat)
    requires Good(s) && ClientEnabled(s, c)
    ensures var s' := ClientStep(s, c); PlacedKept(s'.h, s'.ms) && SubmittedKept(s'.h, s'.clients)
  {
    hide PlacedKept, SubmittedKept, Control;
    var k := s.clients[c];
    if Places(s, k) {
      PlaceLedger(s.h, s.ms, s.clients, c, k.i, k.t);
    } else {
      SamePending(s.h, s.clients, c, Next(s, k));
      if k.TermStop? && k.i < |s.ms| {
        SameTask(s.h, s.ms, k.i, Stop(s.ms[k.i]));
      } else if k.Delete? && k.i < |s.ms| {
        SameTask(s.h, s.ms, k.i, Retire(s.ms[k.i]));
      }
    }
  }

  lemma Submitting(h: History, ms: seq<Manager>, cs: seq<Client>, c: nat, t: Task)
    requires PlacedKept(h, ms) && SubmittedKept(h, cs) && c < |cs| && cs[c].Out? && t !in h.submitted
    ensures var h' := h.(submitted := h.submitted + {t}); PlacedKept(h', ms) && SubmittedKept(h', cs[c := Exec(t)])
  {
    hide SubmittedKept;
    assert multiset(h.submitted + {t}) == multiset(h.submitted) + multiset{t};
    SubmittedMoves(h, h.(submitted := h.submitted + {t}), cs, c, Exec(t), multiset{t}, multiset{});
  }

  lemma EnterLedger(s: State, c: nat, call: Call)
    requires PlacedKept(s.h, s.ms) && SubmittedKept(s.h, s.clients) && EnterEnabled(s, c, call)
    ensures var s' := EnterStep(s, c, call); PlacedKept(s'.h, s'.ms) && SubmittedKept(s'.h, s'.clients)
  {
    hide PlacedKept, SubmittedKept;
    if call.Execute? {
      Submitting(s.h, s.ms, s.clients, c, call.t);
    } else {
      SamePending(s.h, s.clients, c, EnterStep(s, c, call).clients[c]);
    }
  }

  lemma StepGood(s: State, a: Action)
    requires Good(s) && Enabled(s, a)
    ensures Good(Step(s, a))
  {
    hide PlacedKept, SubmittedKept, Control;
    StepControl(s, a);
    match a
    case Enter(c, call) => EnterLedger(s, c, call);
    case Return(c) => SamePending(s.h, s.clients, c, Out);
    case ClientAct(c) => ClientLedger(s, c);
    case WorkerAct(i) =>
      ManagersOk(s, i);
      WorkerLedger(s.h, s.ms, i);
      WorkerSubmitted(s.h, s.ms[i], s.clients);
    case SpuriousWorker(i) => SameTask(s.h, s.ms, i, s.ms[i].(pc := Ready));
  }

  lemma ManagersOk(s: State, i: nat)
    requires Control(s) && i < |s.ms|
    ensures ManagerOk(s.ms[i])
  {
  }

  lemma InitGood(size: nat, clients: nat)
    ensures Good(Init(size, clients))
  {
    InitControl(size, clients);
    FilledNone(Slots(Init(size, clients).ms));
    FilledNone(Pending(Init(size, clients).clients));
  }

  lemma RunGood(size: nat, clients: nat, acts: seq<Action>)
    requires IsRun(size, clients, acts)
    ensures Good(After(size, clients, acts))
  {
    hide Step, Enabled;
    InitGood(size, clients);
    forall s, a | Good(s) && Enabled(s, a) ensures Good(Step(s, a)) {
      StepGood(s, a);
    }
    RunKeeps(Enabled, Step, Good, Init(size, clients), acts);
  }

  // ---- Tasks ----

  /** Every submitted task is in exactly one place: in its client's execute, in one slot,
      run and deleted, or deleted without a run. */
  lemma ExactlyOnePlace(size: nat, clients: nat, acts: seq<Action>, t: Task)
    requires IsRun(size, clients, acts)
    ensures var s := After(size, clients, acts); (
      Filled(Pending(s.clients))[t] + Filled(Slots(s.ms))[t] + multiset(s.h.finished)[t] + multiset(s.h.discarded)[t]
      == if t in s.h.submitted then 1 else 0)
  {
    RunGood(size, clients, acts);
    var s := After(size, clients, acts);
    assert multiset(s.h.submitted)[t] == Filled(Pending(s.clients))[t] + multiset(s.h.placed)[t];
  }

  /** An execute returns in the step that puts its task into one slot, which was empty and
      whose worker is not left asleep; no other manager changes in that step.  The set_task
      that follows a positive is_idle fails at most because the worker has its lock. */
  lemma ExecuteFillsOneSlot(size: nat, clients: nat, acts: seq<Action>, c: nat)
    requires IsRun(size, clients, acts) && ClientEnabled(After(size, clients, acts), c)
    requires PendingTask(After(size, clients, acts).clients[c]).Some?
    ensures var s := After(size, clients, acts); var s' := ClientStep(s, c); var k := s.clients[c]; (
      if s'.clients[c].Out? then
        && k.Scan? && k.i < |s.ms| && s.ms[k.i].task.None? && s'.ms == s.ms[k.i := s'.ms[k.i]]
        && s'.ms[k.i].task == Some(k.t) && s'.ms[k.i].pc != Asleep(false)
      else
        && s'.ms == s.ms && PendingTask(s'.clients[c]) == PendingTask(k)
        && (k.Scan? && k.idle ==> k.i < |s.ms| && s.ms[k.i].task.None? && HoldsLock(s.ms[k.i])))
  {
    RunControl(size, clients, acts);
    var s := After(size, clients, acts);
    assert ClientOk(s.ms, s.clients[c]);
  }

  /** is_idle takes none of the managers' locks, and its positive answer is still a correct
      snapshot: slots are filled under the pool lock alone. */
  lemma IdleIsASnapshot(size: nat, clients: nat, acts: seq<Action>, c: nat)
    requires IsRun(size, clients, acts) && ClientEnabled(After(size, clients, acts), c)
    requires ClientStep(After(size, clients, acts), c).clients[c] == Answered(true)
    ensures var s := ClientStep(After(size, clients, acts), c);
      multiset(s.h.placed) == multiset(s.h.finished) + multiset(s.h.discarded)
  {
    RunGood(size, clients, acts);
    var s := After(size, clients, acts);
    assert ClientOk(s.ms, s.clients[c]);
    FilledNone(Slots(s.ms));
  }

  // ---- No circular wait ----

  datatype Agent = TheClient(c: nat) | TheWorker(i: nat)

  /** `a` cannot go on before `b` has given back a lock or ended. */
  ghost predicate WaitsFor(s: State, a: Agent, b: Agent)
  {
    match a
    case TheWorker(i) => i < |s.ms| && s.ms[i].pc.Notifying? && s.pl.Some? && b == TheClient(s.pl.value)
    case TheClient(c) =>
      c < |s.clients| && !ClientEnabled(s, c) &&
      match s.clients[c]
      case Exec(_) => b == TheClient(s.pl.value)
      case Ask => b == TheClient(s.pl.value)
      case Term => b == TheClient(s.pl.value)
      case Delete(i) => b == TheWorker(i)
      case Join(i) => b == TheWorker(i)
      case _ => false
  }

  /** Neither asleep, nor ended, nor outside. */
  predicate Active(s: State, a: Agent)
  {
    match a
    case TheWorker(i) => i < |s.ms| && s.ms[i].pc != Asleep(false) && !s.ms[i].pc.Exited?
    case TheClient(c) => c < |s.clients| && !s.clients[c].Out? && !s.clients[c].Answered? && !s.clients[c].Destroyed?
  }

  predicate CanAct(s: State, a: Agent)
  {
    match a
    case TheWorker(i) => WorkerEnabled(s, i)
    case TheClient(c) => ClientEnabled(s, c)
  }

  /** These are all the waits there are: whoever is active can act or waits for another. */
  lemma ActsOrWaits(size: nat, clients: nat, acts: seq<Action>, a: Agent)
    requires IsRun(size, clients, acts) && Active(After(size, clients, acts), a)
    ensures CanAct(After(size, clients, acts), a) <==> !exists b :: WaitsFor(After(size, clients, acts), a, b)
  {
    RunControl(size, clients, acts);
    var s := After(size, clients, acts);
    if !CanAct(s, a) {
      var b := if a.TheClient? && (s.clients[a.c].Delete? || s.clients[a.c].Join?) then TheWorker(s.clients[a.c].i)
               else TheClient(s.pl.value);
      assert WaitsFor(s, a, b);
    }
  }

  /** The reverse of the other pool's order: first the managers, then the pool. */
  function Level(s: State, a: Agent): nat
  {
    match a
    case TheWorker(i) => 1
    case TheClient(c) =>
      if c >= |s.clients| then 2 else
      match s.clients[c]
      case Delete(_) => 0
      case Join(_) => 0
      case Exec(_) => 1
      case Ask => 1
      case Term => 1
      case _ => 2
  }

  lemma {:induction false} ChainClimbs(s: State, chain: seq<Agent>)
    requires LocksOk(s) && |chain| >= 2
    requires forall k :: 0 <= k < |chain| - 1 ==> WaitsFor(s, chain[k], chain[k + 1])
    ensures Level(s, chain[0]) < Level(s, chain[|chain| - 1])
  {
    assert WaitsFor(s, chain[0], chain[1]);
    if |chain| > 2 {
      ChainClimbs(s, chain[1..]);
    }
  }

  /** Workers ask for the pool lock with their own lock in hand, and whoever holds the pool
      lock can always go on, so nobody waits, however indirectly, for itself. */
  lemma NoCircularWait(size: nat, clients: nat, acts: seq<Action>, chain: seq<Agent>)
    requires IsRun(size, clients, acts) && |chain| >= 2
    requires forall k :: 0 <= k < |chain| - 1 ==> WaitsFor(After(size, clients, acts), chain[k], chain[k + 1])
    ensures chain[0] != chain[|chain| - 1]
    ensures var s := After(size, clients, acts); s.pl.Some? ==> ClientEnabled(s, s.pl.value)
  {
    RunControl(size, clients, acts);
    ChainClimbs(After(size, clients, acts), chain);
  }

  // ---- Rest ----

  ghost predicate Quiet(s: State)
  {
    (forall i: nat :: !WorkerEnabled(s, i)) && forall c: nat :: !ClientEnabled(s, c)
  }

  ghost predicate AtRest(s: State)
  {
    && (forall i :: 0 <= i < |s.ms| ==> s.ms[i].pc.Exited? || s.ms[i].pc == Asleep(false))
    && (forall c :: 0 <= c < |s.clients| ==> s.clients[c].Out? || s.clients[c].Answered? || s.clients[c].Destroyed?)
  }

  lemma QuietPool(s: State)
    requires Control(s) && Quiet(s)
    ensures s.pl.None?
  {
    assert s.pl.Some? ==> ClientEnabled(s, s.pl.value);
  }

  /** The pool comes to rest only where every call has returned and every worker sleeps or
      has left; a task that has been placed and is still there is then in the slot of a
      worker that has left. */
  lemma QuietMeansAtRest(size: nat, clients: nat, acts: seq<Action>)
    requires IsRun(size, clients, acts)
    ensures var s := After(size, clients, acts); (
      && (Quiet(s) <==> AtRest(s))
      && (Quiet(s) ==> forall i :: 0 <= i < |s.ms| && s.ms[i].task.Some? ==> s.ms[i].pc.Exited?))
  {
    RunControl(size, clients, acts);
    var s := After(size, clients, acts);
    if Quiet(s) {
      QuietPool(s);
      forall i | 0 <= i < |s.ms|
        ensures s.ms[i].pc.Exited? || (s.ms[i].pc == Asleep(false) && s.ms[i].task.None?)
      {
        assert !WorkerEnabled(s, i) && ManagerOk(s.ms[i]);
      }
      forall c | 0 <= c < |s.clients|
        ensures s.clients[c].Out? || s.clients[c].Answered? || s.clients[c].Destroyed?
      {
        assert !ClientEnabled(s, c) && ClientOk(s.ms, s.clients[c]);
      }
    }
  }
}
